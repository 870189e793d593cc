/** The process-wide price cache shared by the ingestion writer and the lookup service
    (a `*sync.Map` from base symbol to the latest datum; both hold the same reference). */
module Cache {
  import opened Models

  class PriceCache {
    /** Base symbol -> latest datum stored for it. Entries are overwritten, never deleted. */
    var entries: map<string, PriceDatum>

    /** A cache is empty when the process starts. */
    constructor ()
      ensures entries == map[]
    {
      entries := map[];
    }

    /** `Store(symbol, datum)`: replaces the one entry for `symbol` and nothing else. */
    method Store(symbol: string, datum: PriceDatum)
      modifies this
      ensures entries == old(entries)[symbol := datum]
    {
      entries := entries[symbol := datum];
    }
  }
}
