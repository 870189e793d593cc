/** The lookup service (backend/price-tracker/services/price-tracker.go): the latest price by a
    three-tier fallback (shared cache, the exchange's REST point query, the repository), the
    last day's history from the repository, and symbol validity as cache membership. */
module Services {
  import opened Wrappers
  import opened Decimal
  import opened Errors
  import opened Models
  import opened Cache

  /** The exchange's single-symbol price endpoint; the pair is appended to it. */
  const TickerPriceEndpoint: string := "https://api.binance.com/api/v3/ticker/price?symbol="

  /** What the GET of the point query yields, as the HTTP client and the JSON decoder see it. */
  datatype HttpOutcome =
    | TransportFailure(cause: string)   // includes the client's two-second timeout
    | DecodeFailure(cause: string)      // the body is not a ticker entry
    | Decoded(body: BinanceResult)

  /** The decoded body converts without a panic: a price that parses comes with a symbol of at
      least four characters. */
  predicate Convertible(o: HttpOutcome) {
    o.Decoded? && ParsePrice(o.body.price).Some? ==> |o.body.symbol| >= 4
  }

  /** The point query answered with a usable price. */
  predicate Answers(o: HttpOutcome) {
    o.Decoded? && ParsePrice(o.body.price).Some?
  }

  /** The URL of the point query for a request: the endpoint followed by symbol and currency. */
  function TickerPriceUrl(req: PriceDatum): (url: string)
    ensures |url| == |TickerPriceEndpoint| + |req.symbol| + |req.currency|
    ensures url[..|TickerPriceEndpoint|] == TickerPriceEndpoint
    ensures url[|TickerPriceEndpoint|..] == req.symbol + req.currency
  {
    TickerPriceEndpoint + req.symbol + req.currency
  }

  /** Two requests query the same URL exactly when their symbol-plus-currency pairs agree. */
  lemma TickerPriceUrlDeterminesPair(a: PriceDatum, b: PriceDatum)
    ensures TickerPriceUrl(a) == TickerPriceUrl(b) <==> a.symbol + a.currency == b.symbol + b.currency
  {
    var n := |TickerPriceEndpoint|;
    assert TickerPriceUrl(a) == TickerPriceEndpoint + (a.symbol + a.currency);
    assert TickerPriceUrl(b) == TickerPriceEndpoint + (b.symbol + b.currency);
    if TickerPriceUrl(a) == TickerPriceUrl(b) {
      assert TickerPriceUrl(a)[n..] == a.symbol + a.currency;
      assert TickerPriceUrl(b)[n..] == b.symbol + b.currency;
    }
  }

  /** The unit test's URL for BTC quoted in USDT. */
  lemma TickerPriceUrlExample(req: PriceDatum)
    requires req.symbol == "BTC" && req.currency == "USDT"
    ensures TickerPriceUrl(req) == "https://api.binance.com/api/v3/ticker/price?symbol=BTCUSDT"
  {
  }

  /** `fetchPriceFromBinanceAPI`: queries the pair's URL; a transport failure, a body that does
      not decode and an entry that does not convert are errors (and give no datum); otherwise the
      entry becomes a datum stamped `now`. */
  function FetchPriceFromBinanceAPI(req: PriceDatum, client: string -> HttpOutcome, now: Instant): (r: Result<PriceDatum, Error>)
    requires Convertible(client(TickerPriceUrl(req)))
    ensures r.Success? <==> Answers(client(TickerPriceUrl(req)))
    ensures client(TickerPriceUrl(req)).TransportFailure? ==> r == Failure(HttpRequest(client(TickerPriceUrl(req)).cause))
    ensures client(TickerPriceUrl(req)).DecodeFailure? ==> r == Failure(JsonDecode(client(TickerPriceUrl(req)).cause))
    ensures client(TickerPriceUrl(req)).Decoded? && r.Failure? ==> r == Failure(Convert(ParseFloat(client(TickerPriceUrl(req)).body.price)))
    ensures r.Success? ==> r.value.symbol + r.value.currency == client(TickerPriceUrl(req)).body.symbol
    ensures r.Success? ==> r.value.timestamp == now && Some(r.value.price) == ParsePrice(client(TickerPriceUrl(req)).body.price)
  {
    match client(TickerPriceUrl(req))
    case TransportFailure(cause) => Failure(HttpRequest(cause))
    case DecodeFailure(cause) => Failure(JsonDecode(cause))
    case Decoded(body) =>
      match NewPriceDatumFromBinanceResult(body, now)
      case Failure(e) => Failure(Convert(e))
      case Success(datum) => Success(datum)
  }

  class PriceTrackingService {
    /** The cache shared with the ingestion writer; this service only reads it. */
    const cache: PriceCache

    constructor (cache: PriceCache)
      ensures this.cache == cache
    {
      this.cache := cache;
    }

    /** `GetLatestPrice`: the first tier that succeeds answers. A cached datum is returned as is,
        whatever currency was asked for, and then neither the exchange nor the repository is
        consulted; on a miss a usable point-query answer is returned; otherwise the repository's
        answer, value or error, is returned unchanged. The cache is only read. */
    function GetLatestPrice(req: PriceDatum, client: string -> HttpOutcome, now: Instant,
                            repo: PriceDatum -> Result<PriceDatum, Error>): (r: Result<PriceDatum, Error>)
      reads cache
      requires req.symbol !in cache.entries ==> Convertible(client(TickerPriceUrl(req)))
      ensures req.symbol in cache.entries ==> r == Success(cache.entries[req.symbol])
      ensures req.symbol !in cache.entries && Answers(client(TickerPriceUrl(req))) ==>
                r == NewPriceDatumFromBinanceResult(client(TickerPriceUrl(req)).body, now)
      ensures req.symbol !in cache.entries && !Answers(client(TickerPriceUrl(req))) ==> r == repo(req)
    {
      if req.symbol in cache.entries then
        Success(cache.entries[req.symbol])
      else
        var fetched := FetchPriceFromBinanceAPI(req, client, now);
        if fetched.Success? then fetched
        else repo(req)
    }

    /** `GetPriceOfTheLast24h`: the repository's list for the request, as it gives it, or its
        error; the service neither filters, downsamples nor reorders. */
    function GetPriceOfTheLast24h(req: PriceDatum, repo: PriceDatum -> Result<seq<PriceDatum>, Error>): (r: Result<seq<PriceDatum>, Error>)
      ensures r.Failure? <==> repo(req).Failure?
      ensures r.Failure? ==> r.error == repo(req).error
      ensures r.Success? ==> r.value == repo(req).value
    {
      match repo(req)
      case Failure(e) => Failure(e)
      case Success(data) => Success(data)
    }

    /** `IsSymbolValid`: a symbol is valid exactly when the cache has an entry for it. */
    predicate IsSymbolValid(symbol: string)
      reads cache
    {
      symbol in cache.entries
    }
  }
}
