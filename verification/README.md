# Assets tracker: a Dafny model of its core

This project models the data-handling core of a personal assets tracker, a
web and desktop application that keeps a portfolio of Taiwan stocks, US
stocks and crypto holdings. Its parts are:

- a local IndexedDB store (Dexie tables of assets, sync logs, exchange
  configs and daily history) and its version-4 data migration;
- the re-sync of holdings from two exchanges (Pionex, BitoPro), which
  carries each symbol's cost forward;
- quote lookup:
  - in the browser, through public CORS proxies, with an OTC-board retry
    for Taiwan symbols;
  - in the desktop shell, through the native `fetch_prices` command;
- the Google Sheets upload and download, and the spreadsheet lookup;
- the sync pass with its log;
- the daily-snapshot history;
- symbol search with de-duplication;
- the add-asset and edit-asset forms' submit logic;
- the CORS proxy worker.

Each module is one source file:

| module | file | source |
|---|---|---|
| `Base` | `base.dfy` | shared helpers: numbers, JavaScript string operations and results (no source of its own) |
| `Tables` | `tables.dfy` | the Dexie tables, as a generic `Table<T>` class |
| `Database` | `database.dfy` | `src/db/database.ts` |
| `Exchange` | `exchange.dfy` | `src/services/exchange.ts` |
| `Price` | `price.dfy` | `src/services/price.ts` |
| `NativePrices` | `native_prices.dfy` | `fetch_prices` in `src-tauri/src/lib.rs` |
| `Sheets` | `sheets.dfy` | `src/services/googleSheets.ts` |
| `Sync` | `sync.dfy` | `src/services/sync.ts` |
| `History` | `history.dfy` | `src/services/history.ts` |
| `Search` | `search.dfy` | `src/services/search.ts` |
| `AssetForms` | `asset_forms.dfy` | `handleSubmit` of the two asset modals |
| `CorsProxy` | `cors_proxy.dfy` | `workers/cors-proxy/src/index.js` |

Code that changes state step by step is imperative Dafny. Tables are objects
whose `rows` and `nextId` fields the methods update, and each source loop
is a `while`/`for` loop. Every such method is proved equal to a
specification function, and the source's promises are lemmas about those
functions.

The outside world is passed in as parameters: network replies, `JSON.parse`,
`parseFloat`, `Date.now()`, the fuzzy ranking and `new URL`. These are
values of small datatypes, or functions the model does not look inside.

A JavaScript value that is absent or falsy is written `""` (for text) or
`None`. A JavaScript number is `Number` (`NaN` or a real).

Three things the sync pass (`src/services/sync.ts:5-52`) does are easy to
miss:

- It reads each remote row by position: cell 0 is the symbol, cells 1 to 3
  the name, type and market, cells 4 and 5 the quantity and cost, cell 6 the
  update time. Header names play no part.
- It adds every row read as a new local asset, beside the assets already
  stored. Nothing is merged, and the history table is not touched.
- The new assets get fresh table keys. No record id is taken from the sheet.

## Model

| member | source | states |
|---|---|---|
| Tables.WithoutMembers | src/db/database.ts:47-51 | the rows left by a `where(...).delete()` are exactly the old rows the predicate rejects |
| Tables.SelectMembers | src/db/database.ts:47-51 | a `where(...).toArray()` returns exactly the values of the rows that match |
| Tables.Patched | src/db/database.ts:47-51 | `update(id, f)` keeps every key and changes only the record keyed `id`, to `f` of itself |
| Tables.WithoutKeyed | src/db/database.ts:47-51 | deleting rows keeps the `++id` keys strictly ascending and below the counter |
| Tables.Table.Add | src/db/database.ts:47-51 | `add` appends one record under a fresh key that no existing record has, and advances the counter |
| Tables.Table.BulkAdd | src/db/database.ts:47-51 | `bulkAdd` appends one record per value, in order, under consecutive fresh keys |
| Tables.Table.DeleteWhere | src/db/database.ts:47-51 | removes exactly the matching records; the key counter is not reset |
| Tables.Table.Delete | src/db/database.ts:47-51 | removes exactly the record keyed `id`, if any |
| Tables.Table.Update | src/db/database.ts:47-51 | patches the record keyed `id`, and reports whether it existed |
| Tables.Table.ModifyAll | src/db/database.ts:54-62 | every record becomes `f` of itself, under the same key and in the same order |
| Tables.Table.Clear | src/db/database.ts:47-51 | no record remains; the key counter is kept |
| Database.Upgrade | src/db/database.ts:56-62 | an upgraded asset always has a non-empty source and a canonical market, and no other field changes |
| Database.UpgradeFields | src/db/database.ts:57-61 | an empty source becomes "manual" and a non-empty one stays; "crypto"/"tw"/"us" in any case become "Crypto"/"TW"/"US"; any other market is kept |
| Database.UpgradeKeepsNormalRecord | src/db/database.ts:56-62 | a record that already has a source and a canonical market is unchanged |
| Database.UpgradeIdempotent | src/db/database.ts:56-62 | running the migration step twice equals running it once |
| Database.UpgradeToVersion4 | src/db/database.ts:55-63 | every stored asset is rewritten by the migration step, under its own key, and none is added or dropped |
| Exchange.Tallied | src/services/exchange.ts:156-162 | the insertion-order list and the totals map have the same coins |
| Exchange.TallyMeaning | src/services/exchange.ts:156-162 | aggregation has each coin with a positive amount exactly once (upper-cased), under the sum of its positive amounts, which is positive; no other coin appears |
| Exchange.TallyOrder | src/services/exchange.ts:156-162 | the aggregated coins come in Map insertion order: a coin listed before another was first held, with a positive amount, at an earlier entry |
| Exchange.Aggregate | src/services/exchange.ts:156-162 | the `forEach` loop builds the aggregation characterised by `TallyMeaning` |
| Exchange.FetchPionex | src/services/exchange.ts:134-175 | a failed request propagates its error; `result: false` fails with the API message, or "Pionex API error" when there is none; otherwise one holding per aggregated coin |
| Exchange.FetchBitoPro | src/services/exchange.ts:177-219 | a failed request propagates its error; an `error` field fails with it; otherwise one holding per aggregated currency |
| Exchange.PionexOnePerCoin | src/services/exchange.ts:156-174 | the Pionex holdings are named by exactly the coins with a positive total, none missing or repeated, their record ids are distinct, and they come in the order in which the coins are first held |
| Exchange.PionexHoldingFields | src/services/exchange.ts:164-174 | each Pionex holding has its coin's summed `free + frozen` (positive) as quantity, zero cost, the `-USD` pair symbol unless the coin already names a pair, the record id `pionex-<coin>`, source "pionex", and market Crypto |
| Exchange.BitoProOnePerCurrency | src/services/exchange.ts:197-218 | the BitoPro holdings are named by exactly the currencies with a positive total, none missing or repeated, their record ids are distinct, and they come in the order in which the currencies are first held |
| Exchange.BitoProHoldingFields | src/services/exchange.ts:205-218 | each BitoPro holding has its currency's summed amount (positive) as quantity, zero cost, the record id `bitopro-<currency>` and source "bitopro"; TWD is a TW stock under the symbol TWD, every other currency a Crypto holding under its pair symbol |
| Exchange.FetchFor | src/services/exchange.ts:80-84 | the venue is dispatched on its normalised name; an unknown venue fetches nothing |
| Exchange.FetchedSource | src/services/exchange.ts:80-84 | every fetched holding carries the venue's normalised source |
| Exchange.CostMapLastWins | src/services/exchange.ts:97 | a symbol is in the cost map exactly when a prior asset has it (upper-cased), and it maps to the cost of the last such asset |
| Exchange.CarriedCost | src/services/exchange.ts:100-105 | a fetched holding keeps every field but its cost; the cost is that of the last prior asset with the same upper-cased symbol, or stays 0 when there is none |
| Exchange.RestoreCosts | src/services/exchange.ts:100-105 | the in-place loop leaves each array slot as the fetched holding with its cost restored |
| Exchange.CarryCosts | src/services/exchange.ts:100-105 | the batch after the restore loop is the fetched batch with every cost carried |
| Exchange.SyncBalances | src/services/exchange.ts:73-132 | a failed fetch changes nothing and fails with "Sync failed for <name>: <message>"; otherwise:<br>- the venue's old rows (normalised and legacy source) are replaced by the fetched batch with costs carried;<br>- the config is stamped and renamed;<br>- the count is returned |
| Exchange.Transaction | src/services/exchange.ts:87-125 | the database transaction replaces the venue's rows by the fetched batch with costs carried from the old rows, stamps the config only when it has a non-zero key, and returns the batch size |
| Exchange.ReplaceVenue | src/services/exchange.ts:107-116 | the deletions under both source names and the `bulkAdd` leave the rows `Resynced` defines |
| Exchange.KeptIsWithoutOwned | src/services/exchange.ts:107-111 | deleting the normalised source, then the legacy one, removes exactly the rows the venue owns under either name |
| Exchange.ResyncedReplacesOnlyTheVenue | src/services/exchange.ts:108-116 | after a re-sync, the venue's assets are exactly the incoming batch, in order; every other source's rows are untouched, with the same keys and order |
| Exchange.WithoutIdempotent | src/services/exchange.ts:108-111 | deleting a venue's assets a second time changes nothing |
| Exchange.DeleteExchange | src/services/exchange.ts:221-224 | exactly the config keyed `id` is removed, and exactly the assets whose source is the given name |
| Price.Sanitize | src/services/price.ts:47 | the sanitised symbol is the leading white-space-free word of the trimmed input |
| Price.SanitizeFirstToken | src/services/price.ts:47 | the sanitised symbol is a prefix of the trimmed input without white space, and is empty only for a blank input |
| Price.SanitizeIdempotent | src/services/price.ts:47 | sanitising twice equals sanitising once |
| Price.YahooSymbol | src/services/price.ts:53 | BTC, ETH and SOL gain `-USD`; every other symbol is unchanged |
| Price.TargetEndpointChoice | src/services/price.ts:55-57 | a `.TW` symbol goes to the listed board under its code (the symbol minus its only `.TW`); any other goes to the Yahoo chart under its Yahoo symbol |
| Price.BeforeUnderscoreOf | src/services/price.ts:77 | a bid made of a word without `_`, then `_` and anything, is cut back to exactly that word |
| Price.BeforeUnderscore | src/services/price.ts:77 | `b.split('_')[0]` is a prefix of `b` without `_`, ending where `b`'s first `_` is |
| Price.TwsePriceTextPriority | src/services/price.ts:77 | the priced text is the trade `z` unless empty or "-", else the best bid up to its `_`, else yesterday's close `y` |
| Price.TwsePriceTextExamples | src/services/price.ts:77 | a traded price beats the bid; a "-" trade falls back to the bid before its `_` |
| Price.TwsePrice | src/services/price.ts:77-78 | a Taiwan quote gives a price exactly when its text parses to a positive number, and then gives that number |
| Price.Attempt | src/services/price.ts:61-94 | an attempt's price is never 0 and needs a parsed reply; the first lookup needs an ok reply and then prices a Taiwan document by its first quote, or a chart document by its non-zero market price; the OTC retry prices the quote of the document, or of its unwrapped `contents` |
| Price.FirstPricedStopsAtFirst | src/services/price.ts:60-95 | the proxies are tried in order: the price is that of the first proxy whose attempt succeeds, all before it failed, and none is found only when every proxy failed |
| Price.TryProxies | src/services/price.ts:60-95 | the proxy loop returns the price of the first successful attempt |
| Price.FiatNeedsNoFetch | src/services/price.ts:48-51 | USD, USD-USD and TWD are priced at 1 whatever the network answers |
| Price.NonTaiwanUsesChartOnly | src/services/price.ts:84-90 | a non-fiat, non-`.TW` symbol is priced only from the Yahoo chart, under its Yahoo symbol |
| Price.TaiwanOtcOnlyAsRetry | src/services/price.ts:97-117 | the OTC board is asked only when the listed board gave no price |
| Price.LookUp | src/services/price.ts:46-117 | one symbol goes through fiat pass-through, then the first lookup, then the OTC retry, as `QuoteFor` defines |
| Price.CollectShape | src/services/price.ts:46-119 | the results keep request order under the symbols as requested, and each has its own symbol's price; every priced symbol is present |
| Price.FetchPricesWeb | src/services/price.ts:39-120 | the nested loops give one result per priced symbol, in request order |
| Price.FetchPrices | src/services/price.ts:23-37 | an empty request gives `[]`; the browser uses the web lookup; the desktop uses the native command, or `[]` when it fails |
| Price.ExchangeRate | src/services/price.ts:7-21 | the browser rate is the reported TWD rate when it is non-zero, and 32.5 when it is missing, zero or `NaN` or the lookup threw; the desktop rate is the command's, or 32.5 when it fails |
| NativePrices.BoardPrice | src-tauri/src/lib.rs:74-81 | a board gives a price exactly when its text parses to a positive number |
| NativePrices.StringZDecides | src-tauri/src/lib.rs:77-79 | the text is `z` when a string, else `y`, else "0"; a `z` of "-" gives no price even when `y` would |
| NativePrices.YahooSymbolsAgree | src-tauri/src/lib.rs:104-113 | the command maps symbols to Yahoo symbols exactly as the browser does; only BTC, ETH and SOL change |
| NativePrices.ChartPrice | src-tauri/src/lib.rs:120-148 | a chart reply gives a price exactly when it has a success status and a `regularMarketPrice` |
| NativePrices.TaiwanBoardsThenYahoo | src-tauri/src/lib.rs:56-100 | a `.TW` symbol is tried on the listed board, then the OTC board, and falls through to the Yahoo chart when neither prices it |
| NativePrices.OtherSymbolsYahooOnly | src-tauri/src/lib.rs:102-148 | any other symbol is priced by the Yahoo chart alone |
| NativePrices.NativeLookUp | src-tauri/src/lib.rs:56-148 | the board loop with its `fetched` flag, then the chart, gives the price of `NativeQuoteFor` |
| NativePrices.FetchPrices | src-tauri/src/lib.rs:34-152 | the command always succeeds, with one result per priced symbol, in request order |
| Sheets.Checked | src/services/googleSheets.ts:23-25 | a 401 becomes "UNAUTHORIZED" before the body is read; a throw propagates; otherwise the body is the result |
| Sheets.FetchPortfolio | src/services/googleSheets.ts:15-29 | a 401 is "UNAUTHORIZED"; a thrown request or decoding error is that error; any other answer succeeds with the `values` rows, or `[]` when there are none |
| Sheets.UploadBody | src/services/googleSheets.ts:32-41 | the header row first, then one row per local asset, in order |
| Sheets.UploadBodyColumns | src/services/googleSheets.ts:32-41 | every row has eight cells, and column `k` of an asset's row holds the field the header's `k`-th title names |
| Sheets.UploadRangeFitsBody | src/services/googleSheets.ts:52 | the range written ends on the row where the body's last row lands |
| Sheets.UploadRequest | src/services/googleSheets.ts:31-52 | the PUT goes to the given spreadsheet with the header row followed by one row per asset, in order, over the range `Portfolio!A1:H<n>` whose last row `n` is the last row written |
| Sheets.UpdateOutcome | src/services/googleSheets.ts:51-67 | a 401 on the PUT is "UNAUTHORIZED"; a thrown request is its error; any other answer gives the decoded body or its decoding error |
| Sheets.ClearOutcome | src/services/googleSheets.ts:70-82 | a 401 is "UNAUTHORIZED"; any other status succeeds without reading the body |
| Sheets.NewestOf | src/services/googleSheets.ts:99-103 | the chosen Drive file has the latest modification time, and is the earliest such file (what a stable newest-first sort puts first) |
| Sheets.Newest | src/services/googleSheets.ts:99-103 | the scan picks the file `NewestOf` characterises |
| Sheets.StoredIdShortCircuits | src/services/googleSheets.ts:86-87 | a cached id is returned at once, whatever Drive and the create call would answer |
| Sheets.NewestMatchWins | src/services/googleSheets.ts:97-106 | without a cached id, any Drive match beats creation; the newest match is used and cached |
| Sheets.CreateFallback | src/services/googleSheets.ts:108-134 | a failed or empty search falls through to creation; a 401 there is "UNAUTHORIZED"; an id is cached exactly when the answer has one |
| Sheets.SpreadsheetLocator.FindOrCreate | src/services/googleSheets.ts:84-135 | the id returned, and the id left in local storage, are those `Resolve` defines |
| Sync.RemoteAssets | src/services/sync.ts:23-31 | one asset per remote row, in order |
| Sync.RemoteRowsPositional | src/services/sync.ts:23-31 | row `i` gives asset `i`:<br>- cells 0-5 are symbol, name, type, market, quantity and cost;<br>- cell 6 is the time, or now when missing or 0;<br>- later cells are ignored;<br>- no record id, price or source is set |
| Sync.PlanErrors | src/services/sync.ts:7-20 | a missing spreadsheet id fails before anything is read or written; a 401 on the read or the write fails with "UNAUTHORIZED" |
| Sync.Sync | src/services/sync.ts:5-52 | the pass resolves the sheet, reads, pushes the local assets as they were before the pass, then stores the rows read as new assets; nothing is pushed when resolving or reading failed, and the upload of the local assets is sent whenever reading succeeded; it appends exactly one log record in every case, "Synced N assets" for the N local assets on success, else the error |
| History.FirstOnDay | src/services/history.ts:11 | the lookup finds the earliest record of the day, or reports that the day has none |
| History.FindDay | src/services/history.ts:11 | the index scan finds the record `FirstOnDay` characterises |
| History.SavedCases | src/services/history.ts:13-25 | when the day has a record, only its total and currency change and nothing is added; otherwise exactly one record for the day, with no note, is added under a fresh key and the key counter advances |
| History.SaveKeepsOnePerDay | src/services/history.ts:8-26 | a history with at most one record per day keeps that property through a save |
| History.LastSaveWins | src/services/history.ts:8-26 | two saves on the same day equal the second save alone |
| History.SaveDailySnapshot | src/services/history.ts:8-26 | the rows and key counter after the method are the save `Saved` defines |
| History.UpdateNote | src/services/history.ts:45-47 | only the note of the record keyed `id` changes |
| History.ClearHistory | src/services/history.ts:38-40 | the history is left empty |
| History.LexLeTotal | src/services/history.ts:31-33 | the index order on dates is total |
| History.LexLeTransitive | src/services/history.ts:31-33 | the index order on dates is transitive |
| History.LexLeAntisymmetric | src/services/history.ts:31-33 | two dates ordered both ways are equal |
| History.ByDateOrdered | src/services/history.ts:31-33 | `getHistory` returns every record exactly once (a permutation), in ascending date order, with same-day records in key order |
| History.GetHistory | src/services/history.ts:31-33 | the records returned are a permutation of the stored records, ascending by date, and records of the same date come in key order |
| Search.TwResults | src/services/search.ts:57-81 | a failed exchange search gives nothing; otherwise one result per suggestion, in order |
| Search.TwResultTokens | src/services/search.ts:65-76 | a suggestion gives:<br>- the symbol "<first word>.TW", which has no white space;<br>- a name whose own split is exactly the remaining words;<br>- market TW and type stock |
| Search.TwResultOfCodeAndName | src/services/search.ts:65-76 | "code name" becomes symbol "code.TW", named by the word |
| Search.ListedQuotesMembers | src/services/search.ts:92 | exactly the quotes of type EQUITY, CRYPTOCURRENCY or ETF are kept |
| Search.YahooResultsShape | src/services/search.ts:83-112 | one result per kept quote, in order, whatever market was asked for:<br>- the type is crypto exactly for a cryptocurrency;<br>- the market is TW for `.TW`, else Crypto for a cryptocurrency, else US;<br>- the name is the short name, else the long name, else the symbol |
| Search.FailedSearchesAreEmpty | src/services/search.ts:77-80 | a failed search contributes no results |
| Search.FirstOfEach | src/services/search.ts:28-34 | the de-duplicated results keep every symbol of the input and are no more numerous |
| Search.FirstOfEachDistinct | src/services/search.ts:28-34 | no two kept results share a symbol |
| Search.FirstOfEachIndices | src/services/search.ts:28-34 | the kept results are input results at increasing positions, each the first of its symbol |
| Search.Dedupe | src/services/search.ts:28-34 | the `seen`-set loop keeps what `FirstOfEach` characterises |
| Search.FirstTen | src/services/search.ts:50 | the fallback is the first ten results, or all of them when there are fewer |
| Search.Search | src/services/search.ts:11-55 | the search follows `Searched`: empty query, combined searches, dedupe, ranking, fallback |
| Search.SearchFallback | src/services/search.ts:12-50 | an empty query gives nothing; when the ranking finds nothing, the answer is at most ten results with distinct symbols, a prefix of the de-duplicated list |
| Search.TaiwanExchangeWins | src/services/search.ts:17-34 | for TW, a symbol the exchange returned keeps the exchange's first result for it, not Yahoo's |
| AssetForms.FinalSymbolShape | src/components/AddAssetModal.tsx:23-26 | the stored symbol is upper case and trimmed; for TW it always has a dot, `.TW` being appended exactly when there was none; other markets keep the trimmed upper-cased symbol |
| AssetForms.FinalSymbolIdempotent | src/components/AddAssetModal.tsx:23-26 | submitting the stored symbol again stores the same symbol |
| AssetForms.NewAssetFields | src/components/AddAssetModal.tsx:28-37 | the new asset:<br>- is crypto exactly for the Crypto market;<br>- has the trimmed name, or the symbol when the name is blank;<br>- has the parsed quantity and cost, 0 when they do not parse;<br>- has price = cost, with no record id or source |
| AssetForms.SubmitAdd | src/components/AddAssetModal.tsx:20-48 | exactly one record, the new asset, is added under a fresh key |
| AssetForms.EditPatchFields | src/components/EditAssetModal.tsx:34-39 | an edit changes only quantity, cost, name and time:<br>- a synced asset keeps its quantity, any other takes the parsed quantity, 0 when it does not parse;<br>- the cost is parsed, 0 when it does not parse;<br>- the name is trimmed, or the symbol when blank |
| AssetForms.SyncedQuantityFixed | src/components/EditAssetModal.tsx:28-35 | for an exchange-synced asset, the quantity typed makes no difference |
| AssetForms.SubmitEdit | src/components/EditAssetModal.tsx:30-42 | without a key (or with key 0) nothing is written; otherwise only the record keyed `id` is patched |
| CorsProxy.ForwardedNames | workers/cors-proxy/src/index.js:68-74 | a header is forwarded exactly when the request has it (ignoring case) and it is not hop-by-hop; forwarded names are lower case |
| CorsProxy.ForwardedValues | workers/cors-proxy/src/index.js:68-74 | a forwarded header carries the value of the last request header with that name |
| CorsProxy.ForwardHeaders | workers/cors-proxy/src/index.js:68-74 | the copy loop builds the header map `Forwarded` defines |
| CorsProxy.HandleProxyRequest | workers/cors-proxy/src/index.js:47-100 | the handler answers as `Proxied` defines, including a 500 for an upstream status `new Response` refuses |
| CorsProxy.Fetch | workers/cors-proxy/src/index.js:10-26 | the worker answers as `Routed` defines |
| CorsProxy.RoutingRules | workers/cors-proxy/src/index.js:10-42 | OPTIONS gets 204 with a one-day Max-Age; POST /proxy is proxied; anything else gets 200 with the usage text; every answer carries the CORS headers |
| CorsProxy.ProxyErrors | workers/cors-proxy/src/index.js:50-99 | a missing, empty or unparsable `url` is a 400 and nothing is sent upstream; an undecodable body or an upstream failure is a 500; every error is JSON with the CORS headers |
| CorsProxy.ProxyForwards | workers/cors-proxy/src/index.js:68-98 | a valid request sends the body's method (GET by default), exactly the non-hop-by-hop headers and the payload; an upstream status `new Response` accepts with a body (200 to 599, but not 204, 205 or 304) is relayed with the upstream text and content type (JSON by default) and the CORS headers; any other status, like a failed fetch, is a JSON 500 |

## Left out

- The network, browser storage and the desktop IPC are not modelled. Each reply is a parameter, already decoded into what the code reads from it.
- Exchange API request signing is not modelled. The Pionex and BitoPro requests are signed with HMAC-SHA256 over a timestamped query, and each signed request is represented only by its decoded reply.
- `encodeURIComponent` of the proxied target URL is not modelled. A proxy reply is a function of the proxy and the unencoded target URL.
- Floating point is not modelled. Amounts are reals, or `NaN` where `parseFloat` fails; infinities and rounding are left out. `parseFloat`, `parseInt` and Rust's `parse::<f64>` are parameters.
- Case mapping is ASCII only. `toUpperCase`/`toLowerCase` on non-ASCII letters is left out.
- Dates are inputs. `Date.now()` is one time per operation, and today's ISO day for the history is passed in. Date parsing and formatting are not modelled.
- The fuzzy ranking (Fuse.js) is the parameter `rank`. Only its use, and the fallback when it finds nothing, are modelled.
- The 200 ms pause between symbols in the desktop command is left out. So are its client-build failure and its log lines.
- The desktop `fetch_exchange_rate` command is not modelled beyond its result, which `Price.ExchangeRate` receives as `invoked`.
- `statusText` is left out of the relayed proxy response. So is the runtime's check of its reason phrase.
- The JSON encoding of the `{error}` body is left out. The body is the message itself.
- `Headers.entries()` combining repeated header names is left out. The model takes the incoming headers as a plain sequence, in which the last value for a name wins.
- The Drive search's `sort` is not modelled in place. Only the element the sort puts first is modelled: the newest, and the earliest of equally new files.
- A JSON document that is `null` is modelled as a decoding failure, since reading a field of `null` throws and the code catches that like a parse error. Any other document that is not an object is modelled with every field absent: `PionexReply(None, "", [])` and `BitoProReply("", [])` (no holdings), `Ok(None)` for the Sheets `values` (no rows), `ProxyBody(None, "", None)` (a 400 from the proxy), and `Doc("", None, None)` for a quote (no price).
- History.SaveDailySnapshot: the default `currency = 'TWD'` of `saveDailySnapshot` is left out. The currency is always a parameter, and a call that omits it is the call with `"TWD"`.
- A non-string suggestion, or a Yahoo quote without a symbol, makes the code throw inside the search. The model has neither.
- Sync.RemoteRowsPositional: a missing cell is read as `""`, where the code reads `undefined`. Both parse to `NaN`.
- History.SaveDailySnapshot: the code's `existingRec.id` truthiness check is left out. A stored record always has a key of 1 or more, so it never matters.
- The upload/download round trip is not asserted. The upload writes the record id in column A, but the download reads the symbol from cell 0 of rows that start at A2, so a row read back is shifted by one column. `Sheets.UploadBodyColumns` and `Sync.RemoteRowsPositional` state both layouts.
- Concurrency is left out: overlapping sync passes, and Dexie transactions seen from other tabs.
- The UI components around the two submit handlers are left out, except `isSynced`. So are the modal close handlers and the form state.
