/** The HTTP handlers (backend/price-tracker/controllers/price-tracker.go): query-parameter
    validation with early 400 answers, then the service call, whose error is a 500 and whose
    value is a 200 "ok" (backend/internal/response/response.go). */
module Controllers {
  import opened Wrappers
  import opened Decimal
  import opened Errors
  import opened Models
  import opened Services

  /** The response envelope: meta code and message; data is present on success only. */
  datatype Response<T> = Response(code: int, message: string, data: Option<T>)

  function Ok<T>(data: T): Response<T> {
    Response(200, "ok", Some(data))
  }

  function BadRequest<T>(message: string): Response<T> {
    Response(400, message, None)
  }

  function InternalServerError<T>(e: Error): Response<T> {
    Response(500, Message(e), None)
  }

  /** How a handler answers the service's result: its error as a 500 with the error's
      message, its value as a 200 "ok". */
  function Respond<T>(r: Result<T, Error>): (resp: Response<T>)
    ensures r.Failure? ==> resp == Response(500, Message(r.error), None)
    ensures r.Success? ==> resp == Response(200, "ok", Some(r.value))
  {
    match r
    case Failure(e) => InternalServerError(e)
    case Success(data) => Ok(data)
  }

  /** A validated query parameter, or the message of the 400 answer that rejects it. */
  datatype Checked = Accepted(value: string) | Rejected(message: string)

  /** `getSymbol`: an empty symbol is "missing", a symbol the service does not know is "invalid";
      the emptiness test comes first, so the service is not asked about an empty symbol. */
  function GetSymbol(svc: PriceTrackingService, symbol: string): (r: Checked)
    reads svc.cache
    ensures symbol == "" ==> r == Rejected("missing symbol value ''")
    ensures symbol != "" && !svc.IsSymbolValid(symbol) ==> r == Rejected("invalid symbol value '" + symbol + "'")
    ensures r.Accepted? <==> symbol != "" && symbol in svc.cache.entries
    ensures r.Accepted? ==> r.value == symbol
  {
    if symbol == "" then
      assert "missing symbol value '" + symbol + "'" == "missing symbol value ''";
      Rejected("missing symbol value '" + symbol + "'")
    else if !svc.IsSymbolValid(symbol) then Rejected("invalid symbol value '" + symbol + "'")
    else Accepted(symbol)
  }

  /** `getInterval`: only an empty interval is rejected; any other value is accepted as is. */
  function GetInterval(interval: string): (r: Checked)
    ensures r.Rejected? <==> interval == ""
    ensures r.Rejected? ==> r.message == "interval only support '24' hours"
    ensures r.Accepted? ==> r.value == interval
  {
    if interval == "" then Rejected("interval only support '24' hours") else Accepted(interval)
  }

  /** The request the handlers build: the symbol alone; the `currency` parameter is never read. */
  function SymbolRequest(symbol: string): (req: PriceDatum)
    ensures req.symbol == symbol && req.currency == ""
  {
    PriceDatum(0, symbol, "", Price(0, 0))
  }

  /** `GetLatestPrice` handler. Because the symbol check already demands a cache entry, the
      service always answers from its cache tier here: the answer is a 400 for a missing or
      unknown symbol and otherwise 200 with the cached datum, whatever the currency parameter. */
  function GetLatestPrice(svc: PriceTrackingService, symbol: string, currency: string,
                          client: string -> HttpOutcome, now: Instant,
                          repo: PriceDatum -> Result<PriceDatum, Error>): (resp: Response<PriceDatum>)
    reads svc.cache
    ensures symbol == "" ==> resp == Response(400, "missing symbol value ''", None)
    ensures symbol != "" && !svc.IsSymbolValid(symbol) ==> resp == Response(400, "invalid symbol value '" + symbol + "'", None)
    ensures symbol != "" && svc.IsSymbolValid(symbol) ==> resp == Response(200, "ok", Some(svc.cache.entries[symbol]))
  {
    match GetSymbol(svc, symbol)
    case Rejected(message) => BadRequest(message)
    case Accepted(s) =>
      Respond(svc.GetLatestPrice(SymbolRequest(s), client, now, repo))
  }

  /** `GetPriceHistory` handler: the symbol checks run before the interval check; then the
      service's error is a 500 with its message and its list a 200 "ok". */
  function GetPriceHistory(svc: PriceTrackingService, symbol: string, currency: string, interval: string,
                           repo: PriceDatum -> Result<seq<PriceDatum>, Error>): (resp: Response<seq<PriceDatum>>)
    reads svc.cache
    ensures symbol == "" ==> resp == Response(400, "missing symbol value ''", None)
    ensures symbol != "" && !svc.IsSymbolValid(symbol) ==> resp == Response(400, "invalid symbol value '" + symbol + "'", None)
    ensures symbol != "" && svc.IsSymbolValid(symbol) && interval == "" ==>
              resp == Response(400, "interval only support '24' hours", None)
    ensures symbol != "" && svc.IsSymbolValid(symbol) && interval != "" && repo(SymbolRequest(symbol)).Failure? ==>
              resp == Response(500, Message(repo(SymbolRequest(symbol)).error), None)
    ensures symbol != "" && svc.IsSymbolValid(symbol) && interval != "" && repo(SymbolRequest(symbol)).Success? ==>
              resp == Response(200, "ok", Some(repo(SymbolRequest(symbol)).value))
  {
    match GetSymbol(svc, symbol)
    case Rejected(message) => BadRequest(message)
    case Accepted(s) =>
      match GetInterval(interval)
      case Rejected(message) => BadRequest(message)
      case Accepted(_) =>
        Respond(svc.GetPriceOfTheLast24h(SymbolRequest(s), repo))
  }

  /** Every answer of either handler is 200 with data, or 400 or 500 without. */
  lemma ResponseShape(svc: PriceTrackingService, symbol: string, currency: string, interval: string,
                      client: string -> HttpOutcome, now: Instant,
                      latest: PriceDatum -> Result<PriceDatum, Error>,
                      history: PriceDatum -> Result<seq<PriceDatum>, Error>)
    ensures var r := GetLatestPrice(svc, symbol, currency, client, now, latest);
            (r.code == 200 && r.data.Some?) || (r.code == 400 && r.data.None?)
    ensures var r := GetPriceHistory(svc, symbol, currency, interval, history);
            (r.code == 200 && r.data.Some?) || ((r.code == 400 || r.code == 500) && r.data.None?)
  {
  }
}
