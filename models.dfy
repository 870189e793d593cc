/** The ticker entry the exchange sends and the price datum the tracker stores
    (backend/price-tracker/models). */
module Models {
  import opened Wrappers
  import opened Decimal
  import opened Errors

  /** The only quote currency the tracker ingests; it is exactly four characters long. */
  const USDT: string := "USDT"

  /** An instant, as an opaque count of time units (Go's `time.Time`). */
  type Instant = int

  /** The websocket reply: a status code and the list of raw ticker entries. */
  datatype BinancePriceTicker = BinancePriceTicker(status: int, results: seq<BinanceResult>)

  /** One raw ticker entry: the exchange symbol (base and quote run together) and the price text. */
  datatype BinanceResult = BinanceResult(symbol: string, price: string) {

    /** Whether the last four characters of the raw symbol are the quote currency USDT.
        Slicing a symbol shorter than four characters panics in the source. */
    predicate IsCurrencyUSDT()
      requires |symbol| >= 4
      ensures IsCurrencyUSDT() ==> symbol == symbol[..|symbol| - 4] + USDT
    {
      symbol[|symbol| - 4..] == USDT
    }
  }

  /** One price observation: base symbol, quote currency, price and the instant it was taken. */
  datatype PriceDatum = PriceDatum(timestamp: Instant, symbol: string, currency: string, price: Price)

  /** The suffix test accepts exactly the symbols that are some prefix followed by "USDT". */
  lemma IsCurrencyUSDTIffQuoteSuffix(res: BinanceResult)
    requires |res.symbol| >= 4
    ensures res.IsCurrencyUSDT() <==> exists prefix :: res.symbol == prefix + USDT
  {
    if res.IsCurrencyUSDT() {
      assert res.symbol == res.symbol[..|res.symbol| - 4] + USDT;
    }
    if exists prefix :: res.symbol == prefix + USDT {
      var prefix :| res.symbol == prefix + USDT;
      assert res.symbol[|res.symbol| - 4..] == (prefix + USDT)[|prefix|..] == USDT;
    }
  }

  /** The suffix test reads the symbol only, never the price. */
  lemma IsCurrencyUSDTIgnoresPrice(a: BinanceResult, b: BinanceResult)
    requires |a.symbol| >= 4 && a.symbol == b.symbol
    ensures a.IsCurrencyUSDT() == b.IsCurrencyUSDT()
  {
  }

  /** The unit-test cases of the suffix test. */
  lemma IsCurrencyUSDTExamples()
    ensures BinanceResult("BTCUSDT", "123").IsCurrencyUSDT()
    ensures !BinanceResult("BTCUSD", "123").IsCurrencyUSDT()
  {
    assert "BTCUSDT"[3..] == USDT;
    assert "BTCUSD"[2..] != USDT by { assert "BTCUSD"[2..][0] == 'C'; }
  }

  /** Builds a datum from a raw entry: the price must parse; the symbol is split into the base
      (all but the last four characters) and the quote currency (the last four characters).
      The split happens only after a successful parse, so only then must the symbol be long enough. */
  function NewPriceDatumFromBinanceResult(res: BinanceResult, timestamp: Instant): (r: Result<PriceDatum, Error>)
    requires ParsePrice(res.price).Some? ==> |res.symbol| >= 4
    ensures r.Failure? <==> ParsePrice(res.price).None?
    ensures r.Failure? ==> r.error == ParseFloat(res.price)
    ensures r.Success? ==> r.value.symbol + r.value.currency == res.symbol && |r.value.currency| == 4
    ensures r.Success? ==> r.value.timestamp == timestamp && Some(r.value.price) == ParsePrice(res.price)
    ensures r.Success? && res.IsCurrencyUSDT() ==> r.value.currency == USDT
  {
    match ParsePrice(res.price)
    case None => Failure(ParseFloat(res.price))
    case Some(price) =>
      var n := |res.symbol|;
      assert res.symbol[..n - 4] + res.symbol[n - 4..] == res.symbol;
      Success(PriceDatum(timestamp, res.symbol[..n - 4], res.symbol[n - 4..], price))
  }

  /** The unit-test cases of the constructor: "BTCUSDT"/"123" splits into BTC, USDT, 123;
      the price "abc" is a parse error. */
  lemma NewPriceDatumExamples(timestamp: Instant)
    ensures NewPriceDatumFromBinanceResult(BinanceResult("BTCUSDT", "123"), timestamp)
         == Success(PriceDatum(timestamp, "BTC", "USDT", Price(123, 0)))
    ensures NewPriceDatumFromBinanceResult(BinanceResult("BTCUSDT", "abc"), timestamp)
         == Failure(ParseFloat("abc"))
  {
    ParseWholeExample();
    ParseLettersExample();
    assert "BTCUSDT"[..3] == "BTC" && "BTCUSDT"[3..] == "USDT";
  }
}
