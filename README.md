# Cryptocurrency price tracker — a Dafny model of its core

The tracker has two halves.

**Backend (Go).**
- A websocket fetcher polls the exchange for its ticker list.
- From each reply it keeps the entries quoted in USDT whose price parses. It splits each raw symbol (`BTCUSDT`) into a base symbol (`BTC`) and the quote currency (`USDT`).
- It stamps the whole batch with one timestamp.
- It stores every datum in a process-wide cache keyed by base symbol, and hands the batch to the repository.
- A lookup service answers "latest price" through three tiers, in order:
  1. the cache;
  2. the exchange's REST point query;
  3. the repository.
- It answers "last 24 hours" from the repository.
- A symbol is valid when the cache knows it.
- HTTP handlers validate the query parameters (400), then map the service's error to 500 and its value to 200 "ok".

**Frontend (TypeScript).**
- The `usePriceData` hook fetches the current price and the history.
- It checks both replies' `meta.code`.
- It keeps the last 24 hours of history, sorted ascending.
- It picks an error text through a fixed precedence.
- The search box upper-cases what is typed, suggests known symbols that start with it, and submits the trimmed text.

The model is split into modules:
- `Models`, `Ingestion`, `Cache`, `Services` and `Controllers` for the backend;
- `PriceHook` and `CryptoPriceTracker` for the frontend;
- `Pipeline`, whose lemmas connect ingestion to lookup through the shared cache;
- `JsArray` (`Array.prototype.filter`), `Decimal` (the price parser) and `Errors` as small supporting modules.

Mutable state is modelled as classes:
- `Cache.PriceCache` is the `sync.Map`.
- `Ingestion.BinanceWebsocket` holds the cache writes and the batches handed to `BulkInsert`.
- `PriceHook.PriceDataHook` holds the hook's state cell.
- `CryptoPriceTracker.SearchBox` holds the four state variables of the component.

The history sort works in place on an `array`.

The model stands in for the outside world as follows:
- The current time is a parameter.
- The HTTP client is a function from URL to outcome.
- The repository is a function from request to result.
- The list of known symbols is a parameter.

## Model

| member | source | states |
|---|---|---|
| Models.BinanceResult.IsCurrencyUSDT | backend/price-tracker/models/binance-ticker-response.go:15-17 | Defined only for symbols of at least four characters (bytes, for the ASCII symbols the exchange lists), since the slice panics below that; a true answer means the symbol is some prefix followed by "USDT" |
| Models.IsCurrencyUSDTIffQuoteSuffix | backend/price-tracker/models/binance-ticker-response.go:15-17 | The suffix test is true exactly when the symbol is some prefix followed by "USDT" (both directions) |
| Models.IsCurrencyUSDTIgnoresPrice | backend/price-tracker/models/binance-ticker-response.go:16 | Two entries with the same symbol get the same answer, whatever their prices |
| Models.IsCurrencyUSDTExamples | backend/price-tracker/models/binance-ticker-response_test.go:18-29 | "BTCUSDT" is accepted; "BTCUSD" is rejected |
| Models.NewPriceDatumFromBinanceResult | backend/price-tracker/models/price-datum.go:18-29 | Fails exactly when the price does not parse, with the parse error and no datum. On success, base + currency is the raw symbol, the currency is the last four characters (USDT for a USDT entry), the timestamp is copied and the price is the parsed one. The symbol must be long enough only on the success path |
| Models.NewPriceDatumExamples | backend/price-tracker/models/price-datum_test.go:20-44 | ("BTCUSDT","123") gives BTC/USDT/123; ("BTCUSDT","abc") gives the parse error |
| Decimal.ParseWholeExample | backend/price-tracker/models/price-datum.go:19 | The price text "123" parses to 123 |
| Decimal.ParseLettersExample | backend/price-tracker/models/price-datum.go:19-22 | The price text "abc" does not parse |
| Ingestion.FetchStep | backend/price-tracker/services/ws/binance.go:70-80 | An undecodable message is an unmarshal error, checked before the status. A status other than 200 is "price not available". Only a decoded status-200 reply goes on, unchanged, to ingestion |
| Ingestion.BinanceWebsocket.Tick | backend/price-tracker/services/ws/binance.go:70-80 | On an error, the error is returned and neither the cache nor the repository is touched. Otherwise the reply is ingested exactly as `UpdateLatestPrice` states |
| Ingestion.BinanceWebsocket.UpdateLatestPrice | backend/price-tracker/services/ws/binance.go:86-114 | The loop (proved with invariants against `Batch`) leaves the cache equal to the old cache with each datum of the batch stored in order. The batch is handed to the repository once, and only when non-empty; a failed insert leaves the cache writes in place |
| Ingestion.BatchMembers | backend/price-tracker/services/ws/binance.go:91-102 | A datum is in the batch exactly when it is the datum of some entry that is quoted in USDT and whose price parses. Other entries, including unparsable ones, are skipped |
| Ingestion.BatchStamps | backend/price-tracker/services/ws/binance.go:89-102 | Every datum of one batch carries the single batch timestamp and the USDT quote; the batch is no longer than the reply |
| Ingestion.BatchAppend | backend/price-tracker/services/ws/binance.go:91-102 | Batching distributes over concatenation of replies, so the batch keeps the input order |
| Ingestion.ApplyBatchKeys | backend/price-tracker/services/ws/binance.go:100 | After the writes, the cache's keys are the old keys plus the symbols of the batch, and no others |
| Ingestion.ApplyBatchLastWriteWins | backend/price-tracker/services/ws/binance.go:100 | A datum that no later datum of the batch shares a symbol with is what the cache holds for that symbol afterwards |
| Ingestion.ApplyBatchUntouched | backend/price-tracker/services/ws/binance.go:100 | A symbol that no datum of the batch carries keeps its old entry, or stays absent |
| Ingestion.BinanceTestCase | backend/price-tracker/services/ws/binance_test.go:35-70 | The reply BTCUSDT "100.0", ABCUSDT "200.0" yields the batch BTC then ABC, both USDT, both with the one timestamp |
| Ingestion.DroppedExamples | backend/price-tracker/services/ws/binance.go:91-98 | An entry not quoted in USDT and a USDT entry whose price does not parse both contribute nothing |
| Cache.PriceCache.Store | backend/price-tracker/services/ws/binance.go:100 | Replaces the entry for one symbol and nothing else |
| Services.TickerPriceUrl | backend/price-tracker/services/price-tracker.go:66 | The point-query URL is the fixed endpoint followed by exactly symbol + currency, and nothing else |
| Services.TickerPriceUrlDeterminesPair | backend/price-tracker/services/price-tracker.go:66 | The point-query URL is the fixed endpoint followed by symbol + currency: two requests share a URL exactly when their pairs agree |
| Services.TickerPriceUrlExample | backend/price-tracker/services/price-tracker_test.go:210-214 | BTC quoted in USDT queries `https://api.binance.com/api/v3/ticker/price?symbol=BTCUSDT` |
| Services.FetchPriceFromBinanceAPI | backend/price-tracker/services/price-tracker.go:65-86 | A transport failure, a decode failure and a conversion failure are each their own wrapped error with no datum. Success happens exactly when the body decodes with a parsable price, and the datum then splits the body's symbol and is stamped now |
| Services.PriceTrackingService.GetLatestPrice | backend/price-tracker/services/price-tracker.go:46-62 | A cache hit returns the cached datum, whatever the currency. On a miss, a usable point-query answer is returned; otherwise the repository's value or error is returned unchanged. The cache is only read |
| Services.PriceTrackingService.GetPriceOfTheLast24h | backend/price-tracker/services/price-tracker.go:89-96 | The repository's list for the request, unchanged, or its error, unchanged |
| Errors.Message | backend/price-tracker/models/price-datum.go:21 | Each wrapper (`parse float:`, `http request:`, `json decode:`, `convert:`, `unmarshal:`) puts its prefix before the wrapped message; ParseFloat's own text quotes the input with `strconv.Quote`; "price not available" is fixed, and a repository error passes through unchanged |
| Errors.Quote | backend/price-tracker/models/price-datum.go:19-21 | The quoted input starts and ends with a double quote, and its body reads back as exactly the input |
| Errors.EscapeRoundTrip | backend/price-tracker/models/price-datum.go:19-21 | Escaping loses nothing: reading the escaped text back gives the original |
| Errors.QuoteExample | backend/price-tracker/models/price-datum.go:19-21 | The price text `a"b` is quoted as `"a\"b"` |
| Controllers.Respond | backend/price-tracker/controllers/price-tracker.go:42-48 | A service error becomes 500 with the error's message and no data; a value becomes 200 "ok" with the data |
| Controllers.GetSymbol | backend/price-tracker/controllers/price-tracker.go:77-90 | An empty symbol is rejected with "missing symbol value ''" before validity is asked. An unknown symbol is rejected with "invalid symbol value '<symbol>'". Acceptance happens exactly when the symbol is non-empty and in the cache |
| Controllers.GetInterval | backend/price-tracker/controllers/price-tracker.go:93-101 | Only the empty interval is rejected, with "interval only support '24' hours"; any other value is accepted as is |
| Controllers.SymbolRequest | backend/price-tracker/controllers/price-tracker.go:38-40 | The request handed to the service carries the queried symbol and an empty currency: the `currency` parameter is never read |
| Controllers.GetLatestPrice | backend/price-tracker/controllers/price-tracker.go:32-49 | 400 for a missing or unknown symbol. Otherwise 200 "ok" with the cached datum, whatever the currency parameter: the validity check already demands a cache entry, so the 500 path is never reached |
| Controllers.GetPriceHistory | backend/price-tracker/controllers/price-tracker.go:53-74 | The symbol checks come before the interval check. Then the repository's error is a 500 with its message and its list is a 200 "ok"; the request carries the symbol only |
| Controllers.ResponseShape | backend/internal/response/response.go:23-61 | Every answer is 200 with data, or 400/500 without; the latest-price handler never answers 500 |
| Pipeline.ValidAfterIngestion | backend/price-tracker/services/price-tracker.go:99-105 | After a reply is ingested, a symbol is valid exactly when it was valid before or it is the base symbol of a kept entry of the reply |
| Pipeline.LookupAfterIngestion | backend/price-tracker/services/price-tracker.go:46-49 | After ingestion, looking up the symbol of a batch datum that nothing later in the batch overwrites returns that datum, whatever the exchange or repository would say |
| Pipeline.HandlerAfterIngestion | backend/price-tracker/controllers/price-tracker.go:32-49 | The same through the latest-price handler: 200 "ok" with the ingested datum |
| JsArray.Filter | frontend/src/hooks/usePriceData.ts:11-14 | The result is an order-preserving subsequence of the input holding exactly the accepted elements, each as many times as in the input |
| JsArray.FilterAppend | frontend/src/hooks/usePriceData.ts:11-14 | Filtering distributes over concatenation |
| JsArray.FilterKeepsAll | frontend/src/hooks/usePriceData.ts:11-14 | When every element is accepted, the filter returns its input |
| PriceHook.FilterLast24Hours | frontend/src/hooks/usePriceData.ts:5-15 | Keeps an item exactly when now - 86 400 000 <= timestamp <= now, as often as it occurs, as an order-preserving subsequence |
| PriceHook.FilterLast24HoursEdges | frontend/src/hooks/usePriceData.ts:13 | Both bounds are inclusive: exactly 24 h ago and exactly now are kept; one millisecond beyond either bound is dropped |
| PriceHook.SortByTimestamp | frontend/src/hooks/usePriceData.ts:71-73 | Sorts the array in place into ascending timestamp order, as a permutation of its contents |
| PriceHook.InsertAt | frontend/src/hooks/usePriceData.ts:71-73 | One insertion step extends the sorted prefix by one element, keeping the contents |
| PriceHook.MetaCheck | frontend/src/hooks/usePriceData.ts:58-64 | No failure exactly when both codes are 200. The current-price code is checked first, falling back to "Failed to fetch current price"; then the history code, falling back to "Failed to fetch price history". A failure text is never empty |
| PriceHook.ErrorMessage | frontend/src/hooks/usePriceData.ts:81-96 | The full precedence: the response's meta message if non-empty; else "Server error occurred" when there is a response; else the no-response text when the request was sent; else the error's message. A plain Error gives its message; anything else gives "An unexpected error occurred" |
| PriceHook.FetchFailure | frontend/src/hooks/usePriceData.ts:53-96 | A thrown error gives its chosen text. For replies, the failure is the meta check's text, read back through the `catch` clause |
| PriceHook.WindowedHistory | frontend/src/hooks/usePriceData.ts:67-69 | A payload that is not an array gives an empty history; an array is filtered to the last 24 hours |
| PriceHook.FailureCases | frontend/src/hooks/usePriceData.ts:53-96 | A fetch succeeds exactly when nothing threw and both codes are 200; a meta-check failure text is never empty |
| PriceHook.BackendMessageShown | frontend/src/hooks/usePriceData.ts:84-86 | A rejected request whose reply carries a non-empty meta message fails with exactly that message |
| PriceHook.PriceDataHook.constructor | frontend/src/hooks/usePriceData.ts:41-46 | The initial state: no price, no history, not loading, no error |
| PriceHook.PriceDataHook.BeginFetch | frontend/src/hooks/usePriceData.ts:51 | Sets loading, clears the error and keeps the rest |
| PriceHook.PriceDataHook.FinishFetch | frontend/src/hooks/usePriceData.ts:58-104 | On failure: no price, empty history, not loading, error "Error: " + text. On success: the reply's price, and the windowed history sorted ascending as a permutation; not loading, no error |
| PriceHook.PriceDataHook.SymbolChanged | frontend/src/hooks/usePriceData.ts:110-112 | An empty symbol changes nothing; any other symbol runs one fetch to completion, with the outcomes of `FinishFetch` |
| CryptoPriceTracker.Trim | frontend/src/components/CryptoPriceTracker.tsx:40-41 | A non-empty result is the slice between the leading and the trailing white space, and it begins and ends with a non-white-space character |
| CryptoPriceTracker.TrimEmptyIff | frontend/src/components/CryptoPriceTracker.tsx:40 | The trimmed text is empty (falsy) exactly when the input is all white space |
| CryptoPriceTracker.ToUpperCaseNormalizes | frontend/src/components/CryptoPriceTracker.tsx:53 | Upper-casing leaves no lower-case letter, changes a string exactly when it has one, and is idempotent |
| CryptoPriceTracker.SearchAfterChange | frontend/src/components/CryptoPriceTracker.tsx:39-54 | After an edit, the search's upper-casing changes nothing: the submitted symbol is the trimmed text of the box |
| CryptoPriceTracker.Suggestions | frontend/src/components/CryptoPriceTracker.tsx:57-59 | Exactly the known symbols that start with the value, each as often as in the list, as a subsequence of the list (list order) |
| CryptoPriceTracker.SearchBox.constructor | frontend/src/components/CryptoPriceTracker.tsx:28-31 | Input "BTC", symbol "BTC", no suggestions, dropdown hidden |
| CryptoPriceTracker.SearchBox.HandleChange | frontend/src/components/CryptoPriceTracker.tsx:52-66 | The input becomes the upper-cased value. A non-empty value lists the matching known symbols, and the dropdown shows exactly when there are any. An empty value clears the list and hides the dropdown. The symbol is unchanged, and every suggestion starts with the input, from any prior state |
| CryptoPriceTracker.SearchBox.HandleSearch | frontend/src/components/CryptoPriceTracker.tsx:39-43 | When the trimmed input is non-empty, the symbol becomes its upper-cased form; otherwise nothing changes. Nothing else changes |
| CryptoPriceTracker.SearchBox.HandleKeyPress | frontend/src/components/CryptoPriceTracker.tsx:45-50 | Enter performs the search and then hides the dropdown; any other key changes nothing |
| CryptoPriceTracker.SearchBox.HandleFocus | frontend/src/components/CryptoPriceTracker.tsx:96 | Focusing the box opens the dropdown whatever the suggestions are, and changes nothing else |
| CryptoPriceTracker.SearchBox.HandleBlur | frontend/src/components/CryptoPriceTracker.tsx:97 | Leaving the box closes the dropdown and changes nothing else |
| CryptoPriceTracker.SearchBox.Drawn | frontend/src/components/CryptoPriceTracker.tsx:112-130 | The list is drawn exactly when the dropdown is open and there are suggestions; it is then all of them, and each starts with the text in the box |
| CryptoPriceTracker.SearchBox.HandleSuggestionClick | frontend/src/components/CryptoPriceTracker.tsx:69-74 | Input and symbol become the choice, the suggestions are cleared and the dropdown is hidden |

## Left out

- Decimal.ParsePrice: accepts only an optional sign and plain decimal digits with at most one point. Go's `strconv.ParseFloat` also takes exponents, hexadecimal, "inf" and "NaN", and rejects out-of-range values. Prices are exact decimals, not float64.
- Floating-point prices in general: tooltip formatting, `toLocaleString` and `toFixed` are not modelled. The frontend's price is an opaque `real`.
- Concurrency is not modelled:
  - the `go b.updateLatestPrice` spawn;
  - the atomicity of `sync.Map` (the cache is a sequential map);
  - `Promise.all`, because a fetch outcome is one value;
  - the asynchronous interleaving of `BeginFetch` and `FinishFetch` with other effects.
- Network I/O in the websocket fetcher is not modelled: `Connect`, `WriteJSON`, `ReadMessage` and `Sleep`. `Tick` takes the read message as a decoded-or-not value.
- The worker's retry loop (`controllers/worker.go`) is not modelled. It is an endless goroutine that only retries and sleeps.
- The HTTP client and JSON decoding of the point query are an abstract `HttpOutcome` per URL. The repository is a function argument; its SQLite implementation is not part of this model.
- Models.NewPriceDatumFromBinanceResult: the Go function returns the zero `PriceDatum{}` beside its error; the model returns only the error (`Result`), since no caller reads the datum on the error path.
- Controllers.GetLatestPrice: the handlers build the request from the symbol alone. So the point query's URL would lack the quote currency, and the stored currency in the request is empty. The model keeps this as written, but the cache tier always answers in this handler, so the URL is never queried.
- Go panics are modelled as preconditions:
  - IsCurrencyUSDT and NewPriceDatumFromBinanceResult need a symbol of at least four characters (see the line on bytes below);
  - for ingestion, every entry of the reply must have such a symbol;
  - for the point query, the decoded entry must have one.
- Models.BinanceResult.IsCurrencyUSDT: raw symbols are modelled as sequences of characters, while Go's `len` and string slices count UTF-8 bytes. The two agree on ASCII symbols, which is what the exchange lists. For a symbol with a non-ASCII character they can differ:
  - the model excludes a symbol of fewer than four characters that Go accepts because it has four bytes or more (`"€€"` is two characters and six bytes; Go answers false for it without a panic);
  - a reply holding such an entry is outside `Ingestion.WellFormed`, while Go skips just that entry;
  - Models.NewPriceDatumFromBinanceResult and Services.FetchPriceFromBinanceAPI split a non-ASCII, non-USDT symbol four characters from the end, where Go splits four bytes from the end (possibly inside a character).
- Errors.Quote: models `strconv.Quote` for the double quote, the backslash and the seven control characters with a short escape. Other non-printable characters (which Go writes as `\x`, `\u` or `\U` escapes) and invalid UTF-8 are written unescaped.
- Logging (`slog`, `console.error`) and gin's response writing are not modelled.
- React rendering and styling are not modelled, apart from the condition under which the dropdown is drawn (`Drawn`).
- CryptoPriceTracker.SearchBox.HandleBlur: the 200 ms delay of `onBlur` is not modelled; the method is the moment its timer fires, and whatever handlers run in between run before it.
- `Date` string parsing is not modelled: timestamps are integer milliseconds, and the current time is a parameter.
- The module-load fetch of the known-symbol list is not modelled; the list is a parameter.
- CryptoPriceTracker.ToUpperCase: upper-cases ASCII letters only. JavaScript's `toUpperCase` also maps other Unicode letters, and some of them to several characters.
- PriceHook.SortByTimestamp: does not state stability. `Array.prototype.sort` is stable, but an insertion sort is also stable, and the model proves only sortedness and permutation.
- The request URLs of the two frontend fetches are not modelled. The hook asks for USDT explicitly, and the backend ignores it.
- Services.PriceTrackingService.IsSymbolValid is the plain membership test, and it has no contract of its own. Its meaning is stated through Controllers.GetSymbol and Pipeline.ValidAfterIngestion.
