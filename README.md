# Transparent price cache, modelled in Dafny

This project models `TransparentCache` from `cache.go`: a read-through cache
in front of a slow, fallible `PriceService`. The cache keeps a table `prices`
from item code to price, the construction-time timestamp `time` and the
window `maxAge`.

- `GetPriceFor` answers from the table when the key is present and the single
  shared expiry point `time + maxAge` has not passed. Otherwise it asks the
  service. A successful answer is stored and returned. A failure returns a
  zero price with an error whose message embeds the text of the service's
  error, and leaves the table alone.
- `GetPricesFor` looks up every item code of a batch and writes each price at
  the input's position.

Files:

- `wrappers.dfy`: `Option`.
- `cache.dfy` (module `PriceCache`): the data model and specification functions.
  - `CacheStep` is one lookup as a transition of the table.
  - `RunBatch` is a batch run in index order.
  - `LastFetched` is the table rebuilt from the service history.
  - It also holds the class `TransparentCache`, with `maxAge` and `time` as
    `const` fields (nothing can reassign them), `prices` as a `map` field, and
    a ghost field `serviceLog` listing every request sent to the service,
    newest first. Its invariant `Valid()` says the table is exactly
    `LastFetched(serviceLog)`.
  - The methods are tied to the specification functions: the new table, the result and
    the new history they produce are those of `CacheStep` or `RunBatch`.
- `cache_properties.dfy` (module `PriceCacheProperties`): lemmas about the
  specification functions, two usage scenarios, and the batch error finding.

The clock and the service are inputs. Each lookup receives the clock reading
`now` that `time.Now()` would return and the `Fetch` answer the service would
give if asked. A batch receives one such `LookupEnv` per position. The answer is
only used when the lookup asks the service, and the history records when it
does.

Two points follow the code exactly:
- Freshness: the code tests `time.Add(maxAge).Before(now)`, so a lookup at
  exactly `time + maxAge` is still fresh (`Expired` is `time + maxAge < now`).
- Batch errors: the code drops per-key errors, although the doc comment of
  `GetPricesFor` (cache.go:55) promises an error whenever a lookup fails. This
  is modelled as written, with a corrected variant beside it (see Findings).

## Model

| member | source | states |
|---|---|---|
| `PriceCache.Expired` | cache.go:39-41 | Defines expiry as the shared point `time + maxAge` lying strictly before the clock reading, as `Before` does. |
| `PriceCache.CacheStep` | cache.go:35-52 | Asks the service exactly when the key is missing or `time + maxAge < now`, and then for this key with this answer. Reports an error exactly when the service was asked and failed. |
| `PriceCache.StepKeepsHistory` | cache.go:43-49 | If the table equals the one rebuilt from the service history before a lookup, it equals the one rebuilt from the history extended by that lookup's request afterwards. |
| `PriceCache.RunBatch` | cache.go:56-71 | A batch yields one result per input position, and its table keeps every key it started with. |
| `PriceCache.BatchKeepsHistory` | cache.go:60-66 | A batch keeps the table equal to the one rebuilt from the history with the batch's requests added. |
| `PriceCache.ReportsEveryFailure` | cache.go:54-55 | Defines the documented batch contract: if any position's lookup failed, the batch error is present. |
| `PriceCache.FirstFailureSpec` | cache.go:54-55 | The corrected batch error is present exactly when some position failed, and is then the error of the earliest failed position. |
| `PriceCache.TransparentCache.constructor` | cache.go:25-32 | A new cache has an empty table and an empty history, records the given window and clock reading, and is `Valid()`. |
| `PriceCache.TransparentCache.GetPriceFor` | cache.go:34-52 | The method's new table, returned price and error, and new history are exactly those of `CacheStep` on the old table, and it preserves `Valid()`. |
| `PriceCache.TransparentCache.GetPricesFor` | cache.go:56-71 | Returns a fresh array as long as the input, with position `i` holding the price of batch result `i`. The new table and history are those of `RunBatch`. The error is always `None`, as in the code. |
| `PriceCache.TransparentCache.GetPricesForReportingFailures` | cache.go:54-55 | The same lookups, table and history as `GetPricesFor`. The error is the first per-key error and meets `ReportsEveryFailure`. |
| `PriceCacheProperties.FreshHit` | cache.go:37-51 | A present key at `now <= time + maxAge`, the boundary included, gets its stored price. No request is sent and the table is unchanged. |
| `PriceCacheProperties.SuccessfulFetchIsStored` | cache.go:44-49 | A successful fetch returns its price and stores it under the key (insert or overwrite). The key set gains exactly that key, and every other entry keeps its price. |
| `PriceCacheProperties.FailedFetchLeavesTable` | cache.go:45-47 | A failed fetch returns the zero price with `UpstreamFetchFailed(cause)` and leaves the table unchanged. No older value is returned as a fallback. |
| `PriceCacheProperties.FailureDoesNotPoison` | cache.go:43-49 | After a failed fetch, a later successful fetch for the same key asks the service and stores its price as if the failure had never happened. |
| `PriceCacheProperties.TableOnlyGrows` | cache.go:43-49 | No lookup removes a key. A new key must be the looked-up key, the service must have been asked, and its answer must have been a price. |
| `PriceCacheProperties.ReturnedPriceIsCached` | cache.go:48-51 | A price returned without error is the price the table then holds for that key. |
| `PriceCacheProperties.ExpiryIsFinal` | cache.go:39-41 | Once the expiry point has passed it stays passed for every later clock reading, and the instant `time + maxAge` itself is fresh. |
| `PriceCacheProperties.FetchedThenFresh` | cache.go:36-51 | Within the window, a second lookup of a key whose first lookup got a price returns the first lookup's price without a request. |
| `PriceCacheProperties.FetchedThenExpired` | cache.go:38-44 | Once the shared expiry has passed, a key fetched an instant earlier is fetched again: freshness is not tracked per entry. |
| `PriceCacheProperties.LastFetchedKeys` | cache.go:44-48 | A key is in the rebuilt table exactly when some request for it got a price. |
| `PriceCacheProperties.LastFetchedIsLatest` | cache.go:44-48 | The rebuilt table maps each key to the answer of its most recent successful request, and no later request for that key succeeded. |
| `PriceCacheProperties.BatchPosition` | cache.go:60-66 | Batch position `i` holds the result of looking up `itemCodes[i]` on the table left by positions `0 .. i-1`. |
| `PriceCacheProperties.BatchAllFresh` | cache.go:60-66 | A batch of present keys within the window sends no request, leaves table and history unchanged, and answers each position from the table. |
| `PriceCacheProperties.BatchAllExpired` | cache.go:60-66 | Past the shared expiry, every position asks the service. The history gains one request per position, in index order. |
| `PriceCacheProperties.BatchNewKeyWasFetched` | cache.go:60-66 | A key a batch adds to the table is the key of some position whose service answer was a price. |
| `PriceCacheProperties.AppleScenario` | cache.go:25-52 | One-minute window. The first lookup of APPLE fetches 1.5. Repeats at 1 s and at 60 s return 1.5 without a request. The lookup at 120 s fetches 1.75. No lookup reports an error, and the request count after each lookup is 1, 1, 1, 2. |
| `PriceCacheProperties.MixedBatchScenario` | cache.go:56-71 | Batch A, B, C with only B failing: `GetPricesFor` returns zero at B and no error, and the corrected variant returns B's error. |
| `PriceCacheProperties.AsWrittenBatchHidesFailure` | cache.go:63-70 | In that batch position 1 fails, yet the code's constant `None` error does not satisfy `ReportsEveryFailure`. |
| `PriceCacheProperties.CorrectedBatchErrorExact` | cache.go:54-55 | The corrected error satisfies `ReportsEveryFailure`, and is `None` exactly when every position succeeded. |

## Left out

- Goroutines and `sync.WaitGroup` (cache.go:58-69): the batch runs its lookups one after the other in index order, which is one legal interleaving. The unsynchronised concurrent writes to `prices` (a data race in the code) are therefore not modelled.
- Real clocks (cache.go:29, 41): timestamps and durations are unbounded integers passed in. `Time.Add` is integer addition and `Before` is `<`. int64 overflow and the monotonic clock reading are not modelled.
- The `PriceService` interface and its implementation (cache.go:11-13, 19, 27): the cache does not hold a service handle. Each lookup is given the answer the service would return.
- The message text built by `fmt.Errorf` (cache.go:46): the error is `UpstreamFetchFailed` carrying the text of the service's error as an opaque string. The code formats `err.Error()` with `%v` and does not wrap the service's error, so its error value is not kept, by the code or by the model.
- float64 semantics: prices are `real` values that are only stored and returned. `ZeroPrice` (0.0) stands for Go's zero value.
- The model's one extra input requirement, that a batch gets one `LookupEnv` per item code (`|env| == |itemCodes|`), describes the modelled environment. It is not a demand of the code.

## Findings

| source | as written | input that shows it | evidently intended | confidence | as-written member | corrected member |
|---|---|---|---|---|---|---|
| cache.go:63-70 | The per-key error is tested by an empty `if` and dropped. A failed position keeps the zero price, and the batch error is always `nil`. | `GetPricesFor("A", "B", "C")` on an empty cache where the service fails only for `"B"` | Any per-key error makes the batch return an error (doc comment at cache.go:55) | not executed; the counterexample is proved | `PriceCacheProperties.AsWrittenBatchHidesFailure` | `PriceCache.TransparentCache.GetPricesForReportingFailures` |
