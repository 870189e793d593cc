/** The websocket ingestion step (backend/price-tracker/services/ws/binance.go): the decision
    taken on each decoded reply, and `updateLatestPrice`, which writes the kept entries of one
    reply into the shared cache and hands them to the repository as one batch. */
module Ingestion {
  import opened Wrappers
  import opened Decimal
  import opened Errors
  import opened Models
  import opened Cache

  /** Every raw symbol is at least four characters long; the suffix test panics otherwise. */
  predicate WellFormed(results: seq<BinanceResult>) {
    forall i :: 0 <= i < |results| ==> |results[i].symbol| >= 4
  }

  /** An entry survives ingestion when its quote currency is USDT and its price parses. */
  predicate Keeps(res: BinanceResult)
    requires |res.symbol| >= 4
  {
    res.IsCurrencyUSDT() && ParsePrice(res.price).Some?
  }

  /** The datum a kept entry becomes, stamped with the batch's timestamp. */
  function Datum(res: BinanceResult, timestamp: Instant): (d: PriceDatum)
    requires |res.symbol| >= 4 && Keeps(res)
    ensures d.currency == USDT && d.timestamp == timestamp
  {
    NewPriceDatumFromBinanceResult(res, timestamp).value
  }

  /** What a single entry contributes to the batch: its datum, or nothing. */
  function Kept(res: BinanceResult, timestamp: Instant): seq<PriceDatum>
    requires |res.symbol| >= 4
  {
    if Keeps(res) then [Datum(res, timestamp)] else []
  }

  /** The batch one reply yields: the kept entries, in input order, all stamped `timestamp`. */
  function Batch(results: seq<BinanceResult>, timestamp: Instant): (batch: seq<PriceDatum>)
    requires WellFormed(results)
    decreases |results|
  {
    if results == [] then []
    else
      Batch(results[..|results| - 1], timestamp) + Kept(results[|results| - 1], timestamp)
  }

  /** The cache after storing each datum of `batch` in order under its symbol. */
  function ApplyBatch(cache: map<string, PriceDatum>, batch: seq<PriceDatum>): (r: map<string, PriceDatum>)
    decreases |batch|
  {
    if batch == [] then cache
    else
      var last := batch[|batch| - 1];
      ApplyBatch(cache, batch[..|batch| - 1])[last.symbol := last]
  }

  /** A datum is in the batch exactly when some kept entry of the reply becomes it. */
  lemma {:induction false} BatchMembers(results: seq<BinanceResult>, timestamp: Instant, d: PriceDatum)
    requires WellFormed(results)
    ensures d in Batch(results, timestamp) <==>
            exists i :: 0 <= i < |results| && Keeps(results[i]) && d == Datum(results[i], timestamp)
    decreases |results|
  {
    if results != [] {
      var n := |results|;
      var init, last := results[..n - 1], results[n - 1];
      var tail := Kept(last, timestamp);
      assert Batch(results, timestamp) == Batch(init, timestamp) + tail;
      BatchMembers(init, timestamp, d);
      if d in Batch(init, timestamp) {
        var i :| 0 <= i < n - 1 && Keeps(init[i]) && d == Datum(init[i], timestamp);
        assert results[i] == init[i];
      } else if d in tail {
        assert Keeps(results[n - 1]) && d == Datum(results[n - 1], timestamp);
      } else {
        forall i | 0 <= i < n && Keeps(results[i]) ensures d != Datum(results[i], timestamp) {
          if i < n - 1 {
            assert results[i] == init[i];
          }
        }
      }
    }
  }

  /** Every datum of one batch carries the batch's single timestamp and the USDT quote. */
  lemma BatchStamps(results: seq<BinanceResult>, timestamp: Instant)
    requires WellFormed(results)
    ensures |Batch(results, timestamp)| <= |results|
    ensures forall d :: d in Batch(results, timestamp) ==> d.timestamp == timestamp && d.currency == USDT
  {
    BatchLength(results, timestamp);
    forall d | d in Batch(results, timestamp) ensures d.timestamp == timestamp && d.currency == USDT {
      BatchMembers(results, timestamp, d);
    }
  }

  lemma {:induction false} BatchLength(results: seq<BinanceResult>, timestamp: Instant)
    requires WellFormed(results)
    ensures |Batch(results, timestamp)| <= |results|
    decreases |results|
  {
    if results != [] {
      BatchLength(results[..|results| - 1], timestamp);
    }
  }

  /** Batching distributes over concatenation, so the batch keeps the input order. */
  lemma {:induction false} BatchAppend(front: seq<BinanceResult>, back: seq<BinanceResult>, timestamp: Instant)
    requires WellFormed(front) && WellFormed(back)
    ensures WellFormed(front + back)
    ensures Batch(front + back, timestamp) == Batch(front, timestamp) + Batch(back, timestamp)
    decreases |back|
  {
    var all := front + back;
    assert WellFormed(all) by {
      forall i | 0 <= i < |all| ensures |all[i].symbol| >= 4 {
        if i >= |front| { assert all[i] == back[i - |front|]; }
      }
    }
    if back == [] {
      assert all == front;
    } else {
      var n := |back|;
      assert all[..|all| - 1] == front + back[..n - 1];
      assert all[|all| - 1] == back[n - 1];
      BatchAppend(front, back[..n - 1], timestamp);
    }
  }

  /** The cache afterwards holds the old keys and the symbol of every datum of the batch, and no others. */
  lemma {:induction false} ApplyBatchKeys(cache: map<string, PriceDatum>, batch: seq<PriceDatum>)
    ensures ApplyBatch(cache, batch).Keys == cache.Keys + set d | d in batch :: d.symbol
    decreases |batch|
  {
    if batch != [] {
      var n := |batch|;
      ApplyBatchKeys(cache, batch[..n - 1]);
      assert batch == batch[..n - 1] + [batch[n - 1]];
      assert (set d | d in batch :: d.symbol) == (set d | d in batch[..n - 1] :: d.symbol) + {batch[n - 1].symbol};
    }
  }

  /** Last write wins: a datum that no later datum of the batch shares a symbol with is what the
      cache holds for that symbol afterwards. */
  lemma {:induction false} ApplyBatchLastWriteWins(cache: map<string, PriceDatum>, batch: seq<PriceDatum>, i: nat)
    requires i < |batch|
    requires forall j :: i < j < |batch| ==> batch[j].symbol != batch[i].symbol
    ensures batch[i].symbol in ApplyBatch(cache, batch)
    ensures ApplyBatch(cache, batch)[batch[i].symbol] == batch[i]
    decreases |batch|
  {
    var n := |batch|;
    if i < n - 1 {
      var init := batch[..n - 1];
      assert init[i] == batch[i];
      ApplyBatchLastWriteWins(cache, init, i);
    }
  }

  /** A prefix of a well-formed reply is well formed. */
  lemma WellFormedPrefix(results: seq<BinanceResult>, k: nat)
    requires WellFormed(results) && k <= |results|
    ensures WellFormed(results[..k])
  {
    forall j | 0 <= j < k ensures |results[..k][j].symbol| >= 4 {
      assert results[..k][j] == results[j];
    }
  }

  /** The batch of a prefix one entry longer: what that entry contributes, appended. */
  lemma BatchStep(results: seq<BinanceResult>, i: nat, timestamp: Instant)
    requires WellFormed(results) && i < |results|
    ensures WellFormed(results[..i]) && WellFormed(results[..i + 1])
    ensures Batch(results[..i + 1], timestamp) == Batch(results[..i], timestamp) + Kept(results[i], timestamp)
  {
    WellFormedPrefix(results, i);
    WellFormedPrefix(results, i + 1);
    assert results[..i + 1][..i] == results[..i];
  }

  /** Storing one more datum: the cache is the previous one with that datum's symbol overwritten. */
  lemma ApplyBatchSnoc(cache: map<string, PriceDatum>, batch: seq<PriceDatum>, d: PriceDatum)
    ensures ApplyBatch(cache, batch + [d]) == ApplyBatch(cache, batch)[d.symbol := d]
  {
    assert (batch + [d])[..|batch|] == batch;
  }

  /** A symbol no datum of the batch carries keeps its old entry, or stays absent. */
  lemma {:induction false} ApplyBatchUntouched(cache: map<string, PriceDatum>, batch: seq<PriceDatum>, symbol: string)
    requires forall d :: d in batch ==> d.symbol != symbol
    ensures symbol in ApplyBatch(cache, batch) <==> symbol in cache
    ensures symbol in cache ==> ApplyBatch(cache, batch)[symbol] == cache[symbol]
    decreases |batch|
  {
    if batch != [] {
      var n := |batch|;
      assert batch[n - 1] in batch;
      forall d | d in batch[..n - 1] ensures d.symbol != symbol {
        assert d in batch;
      }
      ApplyBatchUntouched(cache, batch[..n - 1], symbol);
    }
  }

  /** A USDT entry whose price parses contributes the datum with its base symbol. */
  lemma KeptUsdt(res: BinanceResult, timestamp: Instant, base: string, price: Price)
    requires res.symbol == base + USDT && ParsePrice(res.price) == Some(price)
    ensures |res.symbol| >= 4 && Kept(res, timestamp) == [PriceDatum(timestamp, base, USDT, price)]
  {
    assert res.symbol[|base|..] == USDT && res.symbol[..|base|] == base;
  }

  /** The batch of a reply with two entries. */
  lemma BatchOfTwo(a: BinanceResult, b: BinanceResult, timestamp: Instant)
    requires |a.symbol| >= 4 && |b.symbol| >= 4
    ensures WellFormed([a, b])
    ensures Batch([a, b], timestamp) == Kept(a, timestamp) + Kept(b, timestamp)
  {
    var rs := [a, b];
    var ka, kb := Kept(a, timestamp), Kept(b, timestamp);
    assert rs[..1] == [a] && rs[..1][..0] == [];
    assert Batch(rs[..1], timestamp) == ka;
    assert rs[..2] == rs;
  }

  /** Two USDT entries whose prices parse give a batch of both data, in input order, with
      their base symbols, the USDT quote and the one batch timestamp. */
  lemma BatchExample(a: BinanceResult, b: BinanceResult, timestamp: Instant, baseA: string, baseB: string, p: Price, q: Price)
    requires a.symbol == baseA + USDT && b.symbol == baseB + USDT
    requires ParsePrice(a.price) == Some(p) && ParsePrice(b.price) == Some(q)
    ensures WellFormed([a, b])
    ensures Batch([a, b], timestamp) == [PriceDatum(timestamp, baseA, USDT, p), PriceDatum(timestamp, baseB, USDT, q)]
  {
    KeptUsdt(a, timestamp, baseA, p);
    KeptUsdt(b, timestamp, baseB, q);
    BatchOfTwo(a, b, timestamp);
  }

  /** The ingestion unit test: "BTCUSDT" at "100.0" and "ABCUSDT" at "200.0" become BTC then
      ABC, both quoted in USDT and stamped with the same time. */
  lemma BinanceTestCase(timestamp: Instant)
    ensures WellFormed([BinanceResult("BTCUSDT", "100.0"), BinanceResult("ABCUSDT", "200.0")])
    ensures Batch([BinanceResult("BTCUSDT", "100.0"), BinanceResult("ABCUSDT", "200.0")], timestamp)
         == [PriceDatum(timestamp, "BTC", USDT, Price(1000, 1)), PriceDatum(timestamp, "ABC", USDT, Price(2000, 1))]
  {
    ParseFraction100Example();
    ParseFraction200Example();
    QuotedSymbolsExample();
    BatchExample(BinanceResult("BTCUSDT", "100.0"), BinanceResult("ABCUSDT", "200.0"), timestamp,
                 "BTC", "ABC", Price(1000, 1), Price(2000, 1));
  }

  lemma QuotedSymbolsExample()
    ensures "BTCUSDT" == "BTC" + USDT && "ABCUSDT" == "ABC" + USDT
  {
  }

  /** Entries that are not quoted in USDT, or whose price does not parse, contribute nothing;
      e.g. "ETHBTC" and "XYZUSDT" priced "abc". */
  lemma DroppedExamples(timestamp: Instant)
    ensures Kept(BinanceResult("ETHBTC", "0.05"), timestamp) == []
    ensures Kept(BinanceResult("XYZUSDT", "abc"), timestamp) == []
  {
    ParseLettersExample();
    assert "ETHBTC"[2..][0] == 'H';
  }

  /** What `Fetch` does with one reply: a message that does not decode is an unmarshal error,
      checked before the status; a status other than 200 is "price not available"; otherwise
      the decoded reply goes on to `updateLatestPrice`. */
  function FetchStep(message: Result<BinancePriceTicker, string>): (r: Result<BinancePriceTicker, Error>)
    ensures message.Failure? ==> r == Failure(Unmarshal(message.error))
    ensures message.Success? && message.value.status != 200 ==> r == Failure(PriceNotAvailable)
    ensures r.Success? <==> message.Success? && message.value.status == 200
    ensures r.Success? ==> r.value == message.value
  {
    match message
    case Failure(cause) => Failure(Unmarshal(cause))
    case Success(ticker) => if ticker.status != 200 then Failure(PriceNotAvailable) else Success(ticker)
  }

  class BinanceWebsocket {
    /** The shared cache this fetcher writes. */
    const cache: PriceCache
    /** The batches handed to the repository's `BulkInsert`, oldest first. */
    var inserted: seq<seq<PriceDatum>>

    constructor (cache: PriceCache)
      ensures this.cache == cache && inserted == []
    {
      this.cache := cache;
      inserted := [];
    }

    /** Stores every kept entry into the cache under its base symbol (last write wins) and
        hands the whole batch to the repository once, and only when it is non-empty. A failing
        `BulkInsert` is only logged, so it leaves the cache writes in place. */
    method UpdateLatestPrice(ticker: BinancePriceTicker, now: Instant)
      requires WellFormed(ticker.results)
      modifies this, cache
      ensures cache.entries == ApplyBatch(old(cache.entries), Batch(ticker.results, now))
      ensures inserted == old(inserted) + if Batch(ticker.results, now) == [] then [] else [Batch(ticker.results, now)]
    {
      var bulk: seq<PriceDatum> := [];
      var timestamp := now;  // one timestamp for the whole batch
      var results := ticker.results;
      for i := 0 to |results|
        invariant bulk == Batch(results[..i], timestamp)
        invariant cache.entries == ApplyBatch(old(cache.entries), bulk)
        invariant inserted == old(inserted)
      {
        var res := results[i];
        BatchStep(results, i, timestamp);
        if res.IsCurrencyUSDT() {
          var datum := NewPriceDatumFromBinanceResult(res, timestamp);
          if datum.Failure? {
            continue;
          }
          ApplyBatchSnoc(old(cache.entries), bulk, datum.value);
          cache.Store(datum.value.symbol, datum.value);
          bulk := bulk + [datum.value];
        }
      }
      assert results[..|results|] == results;
      if |bulk| > 0 {
        inserted := inserted + [bulk];
      }
    }

    /** One pass of the fetch loop after the reply has been read: an error ends the connection
        and leaves cache and repository untouched; otherwise the reply is ingested. */
    method Tick(message: Result<BinancePriceTicker, string>, now: Instant) returns (err: Option<Error>)
      requires message.Success? && message.value.status == 200 ==> WellFormed(message.value.results)
      modifies this, cache
      ensures err.Some? <==> FetchStep(message).Failure?
      ensures err.Some? ==> err.value == FetchStep(message).error
      ensures err.Some? ==> cache.entries == old(cache.entries) && inserted == old(inserted)
      ensures err.None? ==> cache.entries == ApplyBatch(old(cache.entries), Batch(message.value.results, now))
      ensures err.None? ==> inserted == old(inserted) + if Batch(message.value.results, now) == [] then [] else [Batch(message.value.results, now)]
    {
      match FetchStep(message)
      case Failure(e) =>
        err := Some(e);
      case Success(ticker) =>
        UpdateLatestPrice(ticker, now);
        err := None;
    }
  }
}
