/** How ingestion and lookup fit together through the shared cache: what one ingested reply
    makes valid, and what the lookup service and the latest-price handler then answer. */
module Pipeline {
  import opened Wrappers
  import opened Errors
  import opened Models
  import opened Ingestion
  import opened Services
  import Controllers

  /** After a reply is ingested, a symbol is valid exactly when it was valid before or it is the
      base symbol of a kept entry of the reply. Nothing ever becomes invalid. */
  lemma ValidAfterIngestion(svc: PriceTrackingService, before: map<string, PriceDatum>,
                            results: seq<BinanceResult>, timestamp: Instant, symbol: string)
    requires WellFormed(results)
    requires svc.cache.entries == ApplyBatch(before, Batch(results, timestamp))
    ensures svc.IsSymbolValid(symbol) <==>
            symbol in before || exists i :: 0 <= i < |results| && Keeps(results[i]) && Datum(results[i], timestamp).symbol == symbol
  {
    var batch := Batch(results, timestamp);
    ApplyBatchKeys(before, batch);
    if symbol !in before && svc.IsSymbolValid(symbol) {
      var d :| d in batch && d.symbol == symbol;
      BatchMembers(results, timestamp, d);
    }
    if exists i :: 0 <= i < |results| && Keeps(results[i]) && Datum(results[i], timestamp).symbol == symbol {
      var i :| 0 <= i < |results| && Keeps(results[i]) && Datum(results[i], timestamp).symbol == symbol;
      BatchMembers(results, timestamp, Datum(results[i], timestamp));
    }
  }

  /** After a reply is ingested, looking up the symbol of a datum of its batch that no later
      datum of the batch overwrites returns that datum, whatever the exchange or the repository
      would say. (`BatchMembers` says which entries of the reply the batch's data come from.) */
  lemma LookupAfterIngestion(svc: PriceTrackingService, before: map<string, PriceDatum>,
                             results: seq<BinanceResult>, timestamp: Instant, k: nat,
                             req: PriceDatum, client: string -> HttpOutcome, now: Instant,
                             repo: PriceDatum -> Result<PriceDatum, Error>)
    requires WellFormed(results)
    requires svc.cache.entries == ApplyBatch(before, Batch(results, timestamp))
    requires k < |Batch(results, timestamp)|
    requires forall j :: k < j < |Batch(results, timestamp)| ==>
               Batch(results, timestamp)[j].symbol != Batch(results, timestamp)[k].symbol
    requires req.symbol == Batch(results, timestamp)[k].symbol
    ensures req.symbol in svc.cache.entries
    ensures svc.GetLatestPrice(req, client, now, repo) == Success(Batch(results, timestamp)[k])
  {
    ApplyBatchLastWriteWins(before, Batch(results, timestamp), k);
  }

  /** The same through the latest-price handler: 200 "ok" with the ingested datum. */
  lemma HandlerAfterIngestion(svc: PriceTrackingService, before: map<string, PriceDatum>,
                              results: seq<BinanceResult>, timestamp: Instant, k: nat,
                              currency: string, client: string -> HttpOutcome, now: Instant,
                              repo: PriceDatum -> Result<PriceDatum, Error>)
    requires WellFormed(results)
    requires svc.cache.entries == ApplyBatch(before, Batch(results, timestamp))
    requires k < |Batch(results, timestamp)|
    requires forall j :: k < j < |Batch(results, timestamp)| ==>
               Batch(results, timestamp)[j].symbol != Batch(results, timestamp)[k].symbol
    requires Batch(results, timestamp)[k].symbol != ""
    ensures Controllers.GetLatestPrice(svc, Batch(results, timestamp)[k].symbol, currency, client, now, repo)
         == Controllers.Response(200, "ok", Some(Batch(results, timestamp)[k]))
  {
    ApplyBatchLastWriteWins(before, Batch(results, timestamp), k);
  }
}
