# dlsite-gamebox request path, modelled in Dafny

This project models the request path of the `dlsite` scraping client:

- the TTL + LRU cache behind `ResponseCache` and `GenericCache<T>`;
- the retry policy `RetryConfig` and the error kinds it classifies;
- `DlsiteClient::get`, the loop that checks the response cache, paces
  requests with the rate limiter, dispatches, classifies the outcome and
  backs off or returns;
- the search feature: the field rules of `parse_search_item_html`, the bulk
  and streaming parses of a result page, and `SearchClient` with its result
  cache.

Modules, one per file:

| file | module | models |
|---|---|---|
| `errors.dfy` | `Errors` | `DlsiteError`, `Option`, `Result` (usable with `:-` like `?`), `ToParseError` |
| `retry.dfy` | `Retry` | `RetryConfig`, `calculate_delay`, `is_retryable` |
| `cache.dfy` | `Cache` | one generic class `GenericCache<V>` over a recency-ordered list of entries; `ResponseCache` is `GenericCache<string>` |
| `text.dfy` | `Text` | the parts of Rust's `str` the extractor uses: `replace`, `split`, `strip_prefix`, `parse::<i32>` |
| `client.dfy` | `Client` | the builder, the rate limiter, the per-attempt decision, the retry loop as a specification function `RunFrom`, and the class `DlsiteClient` |
| `search.dfy` | `Search` | the item extractor, the bulk and streaming parses, and the class `SearchClient` |

Everything that is not deterministic logic is an input:

- Time is whole milliseconds. The cache's clock (`Instant`) and the wall
  clock (`SystemTime`) are separate readings.
- A `FetchWorld` gives one wall-clock reading and one transport outcome per
  possible attempt, plus the cache's lookup and insert instants.
- Sleeps are returned as durations instead of being performed.
- HTML is not parsed. An item fragment is a record of the first element each
  selector matches in it, with that element's attributes and its first text
  node. A `Site` value supplies the JSON envelope decoder, the selection of
  item fragments from the result HTML and `WorkType`'s parser.

Two behaviours of the code differ from what the crate's own comments promise.
The model follows the code:

- The comments at src/client/mod.rs:18-19, 125 and 139 promise at least
  500 ms between requests. The limiter stamps the clock reading taken before
  its pause (line 153), not the time after it. So two consecutive dispatches
  can be closer than 500 ms (`Client.SpacingNotGuaranteed`).
- The comment at src/retry.rs:50 calls timeouts retryable, and
  src/error.rs:22-24 declares a `Timeout` variant for them. But `get` turns
  every transport failure, a timeout included, into `Reqwest` (line 190),
  which `is_retryable` rejects. So transport failures are never retried
  (`Client.TransportErrorIsFinal`).

## Model

| member | source | states |
|---|---|---|
| `Errors.ToParseError` | src/client/search/mod.rs:211-214 | an absent value becomes a `Parse` error carrying the given message; a present one is passed through |
| `Retry.New` | src/retry.rs:30-37 | the three arguments are stored unchanged and the multiplier is fixed at 2 |
| `Retry.Default` | src/retry.rs:17-26 | the default is `new(3, 100 ms, 10 000 ms)`: 3 retries, 100 ms initial delay, 10 s cap, doubling |
| `Retry.ExponentOf` | src/retry.rs:42 | `attempt as i32` is the attempt itself up to `i32::MAX` and the attempt minus 2^32, a negative number, above it |
| `Retry.CalculateDelay` | src/retry.rs:40-45 | the delay never exceeds the configured maximum |
| `Retry.DelayBounds` | src/retry.rs:40-45 | up to `i32::MAX` attempts with a non-zero initial delay, the delay is the smaller of the cap and initial × multiplier^attempt; a zero initial delay gives 0 until the power reaches 2^1024, where 0 × ∞ is NaN and `min` gives the cap; past `i32::MAX` the exponent is negative and the delay is at most initial ÷ multiplier^(2^32 − attempt) |
| `Retry.DelayMonotone` | src/retry.rs:41-43 | with a multiplier of at least 1 the delay never decreases from one attempt to a later one, as long as neither attempt is past `i32::MAX` |
| `Retry.DelayWrapsAround` | src/retry.rs:42 | with the default configuration, attempt 2^31 − 1 waits the full 10 s cap and attempt 2^31, whose exponent wraps negative, waits 0 ms |
| `Retry.DefaultSchedule` | src/retry.rs:74-95 | the default schedule gives 100, 200 and 400 ms for attempts 0, 1 and 2; with a 1 s cap, attempt 10 waits at most 1 s |
| `Retry.IsRetryable` | src/retry.rs:48-59 | an error is retryable exactly when it is `Timeout`, `RateLimit` or an `HttpStatus` of 500 or more |
| `Retry.RetryableIgnoresConfig` | src/retry.rs:48-59 | the classification depends on the error only, never on the configuration |
| `Retry.RetryableExamples` | src/retry.rs:97-108 | timeouts, rate limits, 500 and 503 are retried; 404, 400, `Reqwest`, `SerdeJson`, `Parse` and `Server` are not |
| `Cache.GenericCache.constructor` | src/cache.rs:94-100 | a capacity of 0 is refused (the source panics on it); the new cache is empty with the given capacity and TTL |
| `Cache.GenericCache.Get` | src/cache.rs:103-113 | returns the stored value when its key is present and not expired; the key is then promoted to most recent; an expired key is removed; an absent key changes nothing; the cache stays valid |
| `Cache.GenericCache.Insert` | src/cache.rs:116-123 | the new state is `put` of the entry expiring at `now + ttl`: replace-and-promote, append, or evict the least recently used slot when full; the cache stays within capacity with unique keys |
| `Cache.GenericCache.Clear` | src/cache.rs:126-129 | every entry is gone |
| `Cache.GenericCache.Len` | src/cache.rs:132-135 | the length is the number of distinct keys stored and never exceeds the capacity |
| `Cache.GenericCache.IsEmpty` | src/cache.rs:138-141 | the cache is empty exactly when its length is 0 |
| `Cache.IndexOf` | src/cache.rs:45 | the slot holding the key, the first such slot, or −1 exactly when no slot holds it |
| `Cache.Put` | src/cache.rs:57-64 | the recency list never shrinks, stays within the capacity, and ends with the new entry |
| `Cache.LookupResult` | src/cache.rs:43-54 | a lookup yields a value exactly when the key is stored and the instant is not past its expiry, and the value is the stored data |
| `Cache.AfterLookup` | src/cache.rs:43-54 | an absent key leaves the list unchanged; a hit keeps the length and makes the entry the most recent; an expired entry is dropped, shortening the list by one |
| `Cache.AfterLookupKeepsDistinct` | src/cache.rs:43-54 | a lookup keeps the keys unique |
| `Cache.PutKeepsValid` | src/cache.rs:57-64 | `put` keeps the size within the capacity and the keys unique |
| `Cache.PutStores` | src/cache.rs:57-64 | after `put` the new entry is the most recently used one and is what its key maps to |
| `Cache.PutKeys` | src/cache.rs:57-64 | re-inserting a stored key keeps the key set and the length; a new key in a non-full cache is added; a new key in a full cache evicts exactly the least recently used key |
| `Cache.PutOthersUnchanged` | src/cache.rs:57-64 | `put` leaves the entry of every other key unchanged, except the evicted one |
| `Cache.InsertThenGet` | src/cache.rs:43-64 | a value inserted at `t` is returned by every lookup at an instant up to and including `t + ttl` |
| `Cache.ExpiryIsStrict` | src/cache.rs:16-18 | an entry is still returned at its expiry instant and is expired one millisecond later |
| `Cache.GetHit` | src/cache.rs:43-48 | a hit returns the stored value, which is not past its expiry; the key becomes the most recent; no key is added or lost; every other key keeps its entry, data and expiry alike |
| `Cache.GetHitOrder` | src/cache.rs:43-48 | after a hit the other entries keep their relative order ahead of the hit key, so the least recently used slot is the old first one, or the second when the hit was the first |
| `Cache.GetExpired` | src/cache.rs:45-51 | a lookup of an expired key returns nothing, removes that key (length drops by one) and leaves every other key's entry unchanged |
| `Cache.GetAbsent` | src/cache.rs:43-54 | a lookup of an absent key returns nothing and leaves the cache unchanged |
| `Cache.EvictionScenario` | src/cache.rs:166-176 | with capacity 2, inserting key1, key2 and key3 evicts key1 while key2 and key3 keep their values |
| `Text.StripPrefix` | src/client/search/mod.rs:382 | succeeds exactly when the string starts with the prefix, and returns the rest |
| `Text.RemoveChars` | src/client/search/mod.rs:68 | the replacement never lengthens the string |
| `Text.RemoveCharsRemoves` | src/client/search/mod.rs:68 | no removed character is left after the replacement |
| `Text.RemoveCharsKeeps` | src/client/search/mod.rs:68 | every character outside the removed set survives the replacement |
| `Text.RemoveAbsentChars` | src/client/search/mod.rs:74 | removing characters that do not occur leaves the string unchanged |
| `Text.RemoveCharsTwice` | src/client/search/mod.rs:67-77 | two removals in a row are one removal of both sets |
| `Text.RemoveCharsConcat` | src/client/search/mod.rs:68 | the removal distributes over concatenation |
| `Text.Split` | src/client/search/mod.rs:281-284 | `split` always yields at least one piece |
| `Text.SplitJoin` | src/client/search/mod.rs:281-284 | joining the pieces with the separator gives back the input |
| `Text.SplitNoSeparator` | src/client/search/mod.rs:284 | a string without the separator is a single piece |
| `Text.SplitConcat` | src/client/search/mod.rs:281-284 | splitting at one occurrence of the separator gives the pieces of the left side followed by those of the right side |
| `Text.SplitPiecesFree` | src/client/search/mod.rs:281-286 | no piece holds the separator |
| `Text.SplitPiecesAvoid` | src/client/search/mod.rs:281-286 | a character absent from the input is absent from every piece |
| `Text.ParseI32` | src/client/search/mod.rs:69 | a successful parse needs a non-empty input starting with a digit or a sign, and is non-negative unless the sign is `-`; its failures are stated by `OverflowRejected`, `NegativeOverflowRejected`, `NoDigitsRejected`, `NonDigitRejected` and `LeadingNonDigitRejected` |
| `Text.ParseDigits` | src/client/search/mod.rs:69 | an unsigned run of digits whose value fits in an `i32` parses to that value |
| `Text.ParseShowNat` | src/client/search/mod.rs:69 | every non-negative `i32` written in decimal parses back to its value |
| `Text.ParseNegative` | src/client/search/mod.rs:69 | `-` followed by the decimal form of n, for n up to 2^31, parses to −n |
| `Text.NonDigitRejected` | src/client/search/mod.rs:69 | a character other than a digit after the optional sign makes the `i32` parse fail |
| `Text.LeadingNonDigitRejected` | src/client/search/mod.rs:69 | a first character that is neither a digit nor a sign makes the parse fail |
| `Text.OverflowRejected` | src/client/search/mod.rs:69 | a digit run above `i32::MAX`, with or without `+`, fails: the overflow error of `parse::<i32>`, so "(3,000,000,000)" is not a count |
| `Text.NegativeOverflowRejected` | src/client/search/mod.rs:69 | `-` followed by a value above 2^31 fails: the underflow error of `parse::<i32>` |
| `Text.NoDigitsRejected` | src/client/search/mod.rs:69 | the empty string and a lone `+` or `-` fail |
| `Client.NewBuilder` | src/client/mod.rs:45-54 | the builder defaults: pool 10, timeout 30 s, cache of 100 entries for 1 h, default retry configuration |
| `Client.WithPoolMaxIdlePerHost` | src/client/mod.rs:57-60 | sets the pool size and no other field |
| `Client.WithTimeout` | src/client/mod.rs:63-66 | sets the timeout and no other field |
| `Client.WithCache` | src/client/mod.rs:69-73 | sets the cache capacity and TTL together and no other field |
| `Client.WithRetryConfig` | src/client/mod.rs:76-79 | replaces the retry configuration and no other field |
| `Client.BuilderSetters` | src/client/mod.rs:56-79 | setters of different fields commute, and a later call of the same setter wins |
| `Client.DlsiteClient.Build` | src/client/mod.rs:82-97 | the client takes the builder's base URL and retry configuration, starts with stamp 0 and an empty response cache of the builder's capacity and TTL; capacity 0 is refused |
| `Client.DlsiteClient.constructor` | src/client/mod.rs:113-115 | `new(base_url)` is `build` of a default builder: stamp 0, default retries, empty cache of 100 entries for 1 h |
| `Client.DlsiteClient.Default` | src/client/mod.rs:27-31 | `default()` is `new("https://www.dlsite.com/maniax")`: stamp 0, default retries, empty cache of 100 entries for 1 h |
| `Client.RateLimitWait` | src/client/mod.rs:140-151 | the pause lies in [0, 500]; it is 0 exactly when 500 ms have passed since the stamp; a stamp in the future saturates to a full 500 ms pause; with a stamp in the past the dispatch happens at least 500 ms after the stamp, and exactly 500 ms after it when the stamp is less than 500 ms old |
| `Client.Decide` | src/client/mod.rs:163-169 | an error is retried exactly when attempts remain and it is retryable; otherwise it is returned |
| `Client.AttemptStep` | src/client/mod.rs:155-199 | only a 2xx response whose body can be read succeeds, with that body; an attempt continues only when attempts remain and its error is retryable |
| `Client.LastAttemptReturns` | src/client/mod.rs:137-203 | on attempt `max_retries` every outcome returns, so the fallback after the loop is unreachable |
| `Client.TransportErrorIsFinal` | src/client/mod.rs:189-197 | a transport error is returned at once as `Reqwest`, whatever the attempt |
| `Client.BodyErrorIsFinal` | src/client/mod.rs:182 | a body that cannot be read is returned at once as `Reqwest` |
| `Client.TooManyRequestsRetried` | src/client/mod.rs:159-170 | status 429 becomes `RateLimit` with the fixed message and is retried exactly while attempts remain |
| `Client.FailureStatusRetried` | src/client/mod.rs:171-180 | another non-2xx status becomes `HttpStatus(code)`, retried only for 5xx while attempts remain; a 404 returns on its first dispatch |
| `Client.SpacingNotGuaranteed` | src/client/mod.rs:140-153 | because the stamp is the pre-pause reading, two consecutive dispatches can be 200 ms apart |
| `Client.RunFrom` | src/client/mod.rs:137-200 | the loop dispatches at least once and at most the remaining budget of attempts, with one backoff fewer than dispatches |
| `Client.RunFromShape` | src/client/mod.rs:138-200 | the loop dispatches at least once and at most `max_retries + 1` times, backs off once between consecutive dispatches, the last dispatch decides the result, and its clock reading is the stamp left behind |
| `Client.RunFromRetries` | src/client/mod.rs:163-195 | every dispatch but the last failed in a retryable way before the last attempt and was followed by `calculate_delay` of its own attempt number |
| `Client.RunFromWaits` | src/client/mod.rs:140-153 | each pause is the rate limiter's for the stamp left by the previous dispatch, which is that dispatch's clock reading |
| `Client.DlsiteClient.Get` | src/client/mod.rs:128-204 | the result and the new cache and stamp are `GetSpec`'s: a live cached body for `base_url ++ path` is returned with no dispatch, no pause and the stamp unchanged; otherwise the result, pauses, backoffs and final stamp are those of the retry loop `RunFrom`; only a success inserts `(url, body)`, and a failure leaves the cache as the lookup left it |
| `Client.DlsiteClient.Dispatch` | src/client/mod.rs:136-203 | the result, the pauses, the backoffs and the final stamp are those of `RunFrom` from attempt 0 and the stamp at entry; the fallback after the loop is unreachable |
| `Client.DlsiteClient.Store` | src/client/mod.rs:184-187 | only a success inserts `(url, body)`, expiring `ttl` after the store instant; a failure leaves the cache as it was |
| `Client.GetSpec` | src/client/mod.rs:128-204 | `get` on values: the cache stays within its capacity; the stamp changes and an error is possible only when the lookup missed |
| `Client.CachedAfterGet` | src/client/mod.rs:131-187 | after a successful `get` the URL's entry answers every lookup up to `CachedUntil` with the returned body, and the keys stay unique |
| `Client.GetServedFromCache` | src/client/mod.rs:128-134 | repeating a successful `get` no later than `CachedUntil` returns the same body without a dispatch, so the stamp stays as it was |
| `Client.DlsiteClient.ClearCache` | src/client/mod.rs:213-215 | the response cache is emptied |
| `Client.DlsiteClient.CacheSize` | src/client/mod.rs:218-220 | returns the response cache's length, which is at most its capacity |
| `Client.DlsiteClient.SetRetryConfig` | src/client/mod.rs:223-225 | replaces the retry configuration and leaves the stamp alone |
| `Search.CountAgreesWithNum` | src/client/search/mod.rs:67-77 | whatever `parse_num_str` accepts, `parse_count_str` accepts with the same value |
| `Search.CountInParens` | src/client/search/mod.rs:67-71 | a parenthesised decimal count parses to its value |
| `Search.GroupedCount` | src/client/search/mod.rs:67-68 | a count written "(" digits "," digits ")" loses exactly its parentheses and its separator |
| `Search.CountExample` | src/client/search/mod.rs:67-71 | "(1,234)" is a count of 1234 |
| `Search.NumExample` | src/client/search/mod.rs:73-77 | "1,980" is the number 1980 |
| `Search.ParenthesisedNumRejected` | src/client/search/mod.rs:73-77 | "(12)" is not a number: a `Parse` error with the source's message |
| `Search.ParseCountStr` | src/client/search/mod.rs:67-71 | every failure is the `Parse` error "Failed to parse string to count"; a success needs a non-empty input |
| `Search.ParseNumStr` | src/client/search/mod.rs:73-77 | every failure is the `Parse` error "Failed to parse string to number"; a success needs a non-empty input |
| `Search.AgeCategoryOf` | src/client/search/mod.rs:251-275 | the result is `Adult` exactly when there is no genre span; every failure is a `Parse` error |
| `Search.AgeCategoryLabels` | src/client/search/mod.rs:251-275 | no span means `Adult`; the title "全年齢" means `General` and "R-15" means `R15`, in both directions |
| `Search.AgeCategoryForward` | src/client/search/mod.rs:251-275 | no span gives `Adult`, "全年齢" gives `General`, "R-15" gives `R15`; a span without a title or with any other title fails with the source's message for that case |
| `Search.UnknownAgeLabelFails` | src/client/search/mod.rs:256-271 | a genre span without a title, or with any other title, fails the item |
| `Search.ItemParsesIff` | src/client/search/mod.rs:206-434 | an item parses exactly when every one of its field rules succeeds |
| `Search.ParseItemHead` | src/client/search/mod.rs:211-239 | succeeds exactly when the data, maker and price elements exist and the data element has `data-product_id`; the id and the maker are those; a struck-through price is the original one and the displayed price then the sale price, otherwise the displayed price is the original one |
| `Search.ParseSearchItemHtml` | src/client/search/mod.rs:206-434 | every failure of the item parse is a `Parse` error |
| `Search.MissingRequiredElement` | src/client/search/mod.rs:211-227 | a missing data element, maker element or price element fails the item with the source's message; a missing category, thumbnail or title fails it too |
| `Search.ItemFields` | src/client/search/mod.rs:236-315 | a parsed item's id, title, circle name, age category, circle id, creator, omission flag, work type and thumbnail are the results of their rules on the fragment |
| `Search.ItemCounters` | src/client/search/mod.rs:316-358 | a parsed item's download, rate and review counts are the results of their rules |
| `Search.PriceSplit` | src/client/search/mod.rs:224-235 | with a struck-through price, that price is the original and the displayed one the sale price; without it, the displayed price is the original and there is no sale price |
| `Search.CircleIdShape` | src/client/search/mod.rs:277-287 | the circle id is the first `.`-piece of the last `/`-segment of the maker link, and holds neither character |
| `Search.CircleIdOf` | src/client/search/mod.rs:277-287 | every failure is a `Parse` error and the id holds neither `/` nor `.` |
| `Search.CircleIdOfLink` | src/client/search/mod.rs:277-287 | for a link `dir/id.ext` the circle id is `id` |
| `Search.CircleIdExample` | src/client/search/mod.rs:277-287 | the profile link ending in "RG51654.html" gives "RG51654" |
| `Search.CreatorRule` | src/client/search/mod.rs:288-315 | creator and omission flag exist exactly when the `.author` element does; the name is the first text of its link; the list is omitted exactly when `omit` is one of its class tokens |
| `Search.DlAndRateAgree` | src/client/search/mod.rs:316-344 | the download and rate counts read the same element, so when both parse they are equal |
| `Search.RateCountMirrorsDlCount` | src/client/search/mod.rs:333-344 | in every parsed item the rate count equals the download count |
| `Search.FindWorkTypeSpec` | src/client/search/mod.rs:380-392 | the token scan finds nothing exactly when no token names a known work type, and otherwise finds the first that does |
| `Search.WorkTypeRule` | src/client/search/mod.rs:373-393 | the work type is named by the first `type_` class token that parses to a known type, and is `Unknown("")` exactly when there is none |
| `Search.WorkTypeOf` | src/client/search/mod.rs:373-393 | succeeds exactly when the category element and its `class` attribute exist; every failure is a `Parse` error; the unknown work type is `Unknown("")` |
| `Search.ThumbnailRule` | src/client/search/mod.rs:394-411 | the thumbnail is "https:" followed by `src` when present, else by `data-src` |
| `Search.ThumbnailOf` | src/client/search/mod.rs:394-411 | a thumbnail URL starts with "https:"; the only failure is the `Parse` error "Failed to find thumbnail" |
| `Search.ThumbnailForward` | src/client/search/mod.rs:394-411 | `src` gives the URL whenever present, `data-src` only when `src` is absent, and neither, or no image, is the `Parse` error "Failed to find thumbnail" |
| `Search.ThumbnailMissingFails` | src/client/search/mod.rs:402-409 | an image with neither attribute fails the item |
| `Search.CollectOk` | src/client/search/mod.rs:695-698 | collecting succeeds exactly when every result does, keeping each value in place |
| `Search.CollectErr` | src/client/search/mod.rs:695-698 | a failed collect reports the first failing result's error |
| `Search.Collect` | src/client/search/mod.rs:695-698 | a successful collect has one value per result |
| `Search.ParseEach` | src/client/search/mod.rs:695-697 | one parse result per fragment |
| `Search.ParseSearchHtmlParallel` | src/client/search/mod.rs:685-699 | a successful bulk parse has one item per fragment |
| `Search.Successes` | src/client/search/mod.rs:192-198 | skipping the failures never yields more values than results |
| `Search.SuccessesVersusCollect` | src/client/search/mod.rs:192-198 | skipping the failures keeps every value exactly when collecting succeeds, and then both give the same values |
| `Search.StreamedItems` | src/client/search/mod.rs:192-198 | the stream never delivers more items than the page has fragments |
| `Search.ParseEachAt` | src/client/search/mod.rs:695-697 | result `i` of the per-item map is the parse of fragment `i` |
| `Search.BulkParse` | src/client/search/mod.rs:685-699 | the bulk parse succeeds exactly when every fragment parses, with item `i` from fragment `i`; otherwise it fails with a failing fragment's error |
| `Search.ParseSearchHtml` | src/client/search/mod.rs:436-681 | the sequential parse returns exactly what the bulk parse returns |
| `Search.StreamVersusBulk` | src/client/search/mod.rs:180-201 | the stream delivers every item exactly when the bulk parse succeeds, and then the same items; otherwise it delivers fewer |
| `Search.OneMalformedItem` | src/client/search/mod.rs:192-198 | with one malformed item between good ones, the bulk parse fails with its error while the stream delivers all the others in order |
| `Search.DecodeEnvelope` | src/client/search/mod.rs:133-134 | a failed fetch propagates its error; an undecodable body is `SerdeJson`; otherwise the decoded envelope |
| `Search.CachedResult` | src/client/search/mod.rs:118-128 | a hit succeeds exactly when the fresh envelope decodes, with the cached products, that envelope's count and the query path |
| `Search.FreshResult` | src/client/search/mod.rs:133-151 | a successful miss carries the query path |
| `Search.FreshResultSpec` | src/client/search/mod.rs:133-151 | a miss fails with the envelope's error or the bulk parse's error, and otherwise carries the parsed items, the page's count and the query path |
| `Search.SearchSpec` | src/client/search/mod.rs:112-152 | `search_product` on values: the body and the client's new state are exactly those of `get` of the query path; a success carries the query path and a fetched body; both caches stay within their capacities |
| `Search.ProductsCachedAfterSearch` | src/client/search/mod.rs:116-145 | after a successful search its products answer every result-cache lookup of the query path up to `ResultsCachedUntil`, and the keys stay unique |
| `Search.SearchRepeatKeepsProducts` | src/client/search/mod.rs:116-129 | repeating a successful search while its products are cached returns the cached products, with only the count taken from the new page |
| `Search.BatchFrom` | src/client/search/mod.rs:162-169 | a successful batch has one result per remaining query and both caches stay within their capacities |
| `Search.BatchPaths` | src/client/search/mod.rs:161-169 | in a successful batch result `j` answers query `i + j`: results come in query order |
| `Search.BatchOfOne` | src/client/search/mod.rs:162-169 | a batch of one query is that query's `search_product`, with the same state afterwards |
| `Search.SearchClient.constructor` | src/client/search/mod.rs:81-86 | every new search client starts with an empty result cache of 100 entries living one hour |
| `Search.SearchClient.SearchProduct` | src/client/search/mod.rs:112-152 | the result, the body fetched through the client's `get` and the new client and result-cache state are `SearchSpec`'s: a result-cache hit returns the cached products unchanged with the count of one fresh fetch; a miss returns the fresh parse and caches its products under the query path only on success; the returned query path is the one asked for |
| `Search.SearchClient.ServeHit` | src/client/search/mod.rs:118-128 | the hit path fetches the page through the client's `get` as `GetSpec` says and returns the cached products with that page's count, as `SearchSpec` says |
| `Search.SearchClient.ServeMiss` | src/client/search/mod.rs:133-151 | the miss path fetches the page through the client's `get` as `GetSpec` says, returns the fresh result and inserts its products exactly when it succeeds, as `SearchSpec` says |
| `Search.SearchClient.ParseFetched` | src/client/search/mod.rs:134-151 | given the body the client's `get` returned, the miss path's result and new result cache are `SearchSpec`'s |
| `Search.SearchClient.CachePage` | src/client/search/mod.rs:134-151 | decoding, parsing and caching a fetched page: the fresh result, with the products inserted exactly on success |
| `Search.SearchClient.Fetch` | src/client/search/mod.rs:133 | the body and the client's new state are `GetSpec`'s for the query path; the result cache is not touched |
| `Search.SearchClient.SearchProductStream` | src/client/search/mod.rs:180-201 | the body comes from the client's `get` as `GetSpec` says; an envelope error is returned with no callback call; otherwise the callback receives exactly the items that parse, in document order, and the page's count is returned |
| `Search.SearchClient.SearchProductsBatch` | src/client/search/mod.rs:162-169 | the result and the new state are `BatchFrom`'s: one `search_product` per query, each from the state the previous one left, stopping at the first failure |

## Left out

- Real HTTP: `reqwest`'s send and body read become an outcome oracle. `get_raw` (src/client/mod.rs:207-210) is not modelled. The builder's `reqwest` wiring (pool size, timeout, user agent, and its `expect`) is not modelled either; the builder's fields are kept as values.
- Real sleeping and clocks: `tokio::time::sleep`, `SystemTime` and `Instant::now` become explicit readings, and sleeps are returned as durations. The truncating `as u64` and `as_millis` conversions are not modelled; times are unbounded naturals.
- Concurrency: `Arc<Mutex<…>>`, the `Relaxed` `AtomicU64`, rayon's `par_iter` and `try_join_all` are modelled as sequential code. The race on the shared rate-limiter stamp between concurrent callers is not captured.
- Search.SearchClient.SearchProductsBatch: runs the queries one after another, each search starting from the state the previous one left, and fails with the first failing query in query order. `try_join_all` runs them concurrently and fails with whichever failure completes first, dropping the searches still running. Interleavings of concurrent searches are not modelled.
- Search.BulkParse: promises only that a failed bulk parse reports some failing fragment's error, because rayon's collect may report any of them. The function behind it picks the first in document order.
- HTML parsing and CSS selectors: the `scraper` crate and `src/client/search/selectors.rs` are not part of this model. A fragment is the first match of each selector, with attributes and first text node. Selection of the `#search_result_img_box > li` fragments is an input.
- JSON decoding: `serde_json` is an input function returning the envelope (HTML and `page_info.count`) or nothing, which becomes `SerdeJson`.
- Retry.DelayBounds: the multiplier is a whole number and the delay is exact integer arithmetic. The rounding of the `f64` product, the `f64` `min` and the saturating `as u64` conversion are not modelled. Overflow is modelled only as a product reaching 2^1024, and NaN only as 0 × ∞ or a division by a zero power.
- Retry.DelayMonotone: stated only for attempts up to `i32::MAX` and a multiplier of at least 1. Past `i32::MAX` the exponent wraps and the delay drops (`Retry.DelayWrapsAround`). A multiplier of 0 gives a delay that falls to 0 after attempt 0.
- The `rating` field (src/client/search/mod.rs:412-432): an optional `f32`: the number in the `star_` token of the rating element's class, divided by 10. The element is selected by its class, so the `expect` there cannot fire. Floating point is not modelled, and the field is not part of the item record.
- `SearchProductQuery::to_path` is not part of this model: a query is represented by its canonical path. `WorkType`'s parser and its `Unknown` case are an input.
- The `retry_config` accessor (src/client/mod.rs:228-230) is a field read and is not modelled separately. The `product`, `product_api` and `circle` sub-clients are not part of this model.
- `eprintln!` warnings in the stream, the `Display` strings of `DlsiteError`, and the re-exports of `src/lib.rs` are left out. The payloads of `Reqwest` and `SerdeJson` are kept opaque.
- Overflow of `Instant + ttl` (a panic in the source) is not modelled; instants are unbounded integers.
