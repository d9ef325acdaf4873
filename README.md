# Crawl endpoint and rate limiter, modelled in Dafny

This project models the server-side logic of a small web application. A client posts a URL and the application does the rest.

- The limiter (`lib/rate-limit.ts`) allows each client five requests per 60-second window. It keeps one counter per client in Redis: `INCR`, then `EXPIRE` on the first hit.
- The `POST /api/crawl` handler (`app/api/crawl/route.ts`) runs these steps in order:
  1. the rate-limit gate;
  2. validation of the JSON body (`url`, and `limit` in [1, 100] with default 10);
  3. a lookup in the `crawled_results` cache table, by exact url and unexpired;
  4. on a miss, one crawl;
  5. derivation of the URLs to scrape from the crawled pages;
  6. scraping of every URL, with up to three attempts each;
  7. on full success only, insertion of one cache row that expires seven days later.

The model has one module per component:

- `Wrappers`: Option and Result.
- `RateLimit`: the counter store as a class, with `INCR`/`EXPIRE` methods. `LimitStep` is the pure function that specifies one `rateLimit` call. The lemmas cover sequences of calls and an invariant on expiry times.
- `CrawlTypes`: the scraped item and the trace of external calls.
- `CrawlInput`: the validation schema.
- `CrawlPages`: the flat map that derives the URLs.
- `CrawlCache`: the table as a class holding a sequence of rows. `Matching` is the read filter; its lemmas include the write-then-read round trip.
- `CrawlScrape`: the retry loop, written as a `while` method and proved equal to the recursive function `Retry`. It also holds the all-or-nothing batch `ScrapeBatch` and the loop `ScrapeAll` that computes it.
- `CrawlRoute`: the whole handler as the pure function `Handle` (with `Serve`, `Lookup` and `Miss` for its later stages). The imperative `Post`, `ServeRequest`, `LookupOrCrawl` and `CrawlAndCache` change the two stores in place and are proved equal to those functions. The lemmas state what each outcome of a request implies.

Some conventions run through the model:

- **Clock.** Time is an integer number of seconds and is a parameter. One clock serves both Redis and the database.
- **External services.** The crawler, the scraper and the URL syntax check of `z.string().url()` are function parameters (`Services`). The scraper's answer may depend on the URL's position in the batch and on the attempt number.
- **Call trace.** Every external interaction after the rate-limit gate is returned as a trace of `Call` values: reading the body, the `SELECT`, the crawl, each scrape attempt, the `INSERT`. This is how "not called" and "called once" are stated. The limiter's `INCR` and `EXPIRE`, which run on every request, appear only as the new counter store.

The schema rejects an out-of-range `limit` with 400; it does not clamp it, and neither does the model.

The cache expiry is compared as text. `expires_at` is stored as `toISOString()` text, `YYYY-MM-DDTHH:MM:SS.sssZ`. `CURRENT_TIMESTAMP` is the text `YYYY-MM-DD HH:MM:SS`. SQLite compares the two byte by byte, and on the same date the stored `T` sorts after the space. So a row stays live until the end of the UTC day on which it expires, not until its expiry instant. The model's `CrawlCache.Matches` compares UTC calendar days for this reason.

## Model

| member | source | states |
|---|---|---|
| `RateLimit.Key` | lib/rate-limit.ts:12 | the key is `ratelimit:` followed by the client address |
| `RateLimit.KeyInjective` | lib/rate-limit.ts:12 | two clients with different addresses never share a key |
| `RateLimit.AfterIncr` | lib/rate-limit.ts:12 | `INCR` leaves other keys alone and makes the key's value one more than its live value. A live key keeps its expiry; a new or expired key has none |
| `RateLimit.AfterExpire` | lib/rate-limit.ts:13-15 | `EXPIRE` gives a present key an expiry `seconds` from now and changes nothing else |
| `RateLimit.Verdict` | lib/rate-limit.ts:17-18 | `success` iff the count is at most 5. `remaining` is `max(0, 5 - count)`, never negative, at most 4 when count is at least 1, and positive only when `success` |
| `RateLimit.LimitStep` | lib/rate-limit.ts:8-21 | one call raises the client's count by exactly 1 and leaves every other key unchanged. The count becomes 1 exactly when the 60-second expiry is set; a later call keeps the old expiry. `success` iff the new count is at most 5. `remaining` is 5 minus the new count while that is at most 5, and 0 otherwise |
| `RateLimit.OtherClientsUnaffected` | lib/rate-limit.ts:12 | a call by one client changes no other client's count, at any time |
| `RateLimit.WindowContinues` | lib/rate-limit.ts:9-18 | inside an open window holding j requests, the k-th further call succeeds iff j+k+1 <= 5, and the window's expiry never moves |
| `RateLimit.FirstFiveAllowed` | lib/rate-limit.ts:9-18 | from no live counter, calls within 60 seconds of the first are allowed iff they are among the first five; the window ends 60 seconds after the first call |
| `RateLimit.AllowedAgainAfterWindow` | lib/rate-limit.ts:12-15 | once that window has elapsed, the next call counts 1, succeeds with 4 remaining and opens a new 60-second window |
| `RateLimit.BoundedPreserved` | lib/rate-limit.ts:13-15 | if every live counter expires within 60 seconds of now, that stays true after a call at any later time |
| `RateLimit.BoundedResetsWithinWindow` | lib/rate-limit.ts:10-15 | under that invariant, every counter has reset 60 seconds later |
| `RateLimit.CounterStore.Incr` | lib/rate-limit.ts:12 | returns the incremented value; the new store is `AfterIncr` of the old one |
| `RateLimit.CounterStore.Expire` | lib/rate-limit.ts:14 | the new store is `AfterExpire` of the old one |
| `RateLimit.RateLimit` | lib/rate-limit.ts:8-21 | the store afterwards and the returned `success`/`remaining` are those of `LimitStep` on the store before |
| `CrawlInput.ParseLimit` | app/api/crawl/route.ts:16 | an accepted limit lies in [1, 100]. An absent one becomes 10; a present one must be exactly that integer |
| `CrawlInput.Validate` | app/api/crawl/route.ts:14-17 | an accepted body is an object whose `url` is a string passing the URL check, with a limit in [1, 100]: 10 when absent, otherwise the integer given |
| `CrawlInput.ValidateEncode` | app/api/crawl/route.ts:14-17 | every request with a valid url and limit in [1, 100] is accepted unchanged after encoding as a body |
| `CrawlInput.DefaultLimitApplied` | app/api/crawl/route.ts:16 | a body without `limit` is accepted with limit 10 |
| `CrawlInput.InvalidInputRejected` | app/api/crawl/route.ts:14-17 | a non-object body, a missing or non-string or invalid url, or a present `limit` that is not an integer in [1, 100] is rejected |
| `CrawlPages.PageUrls` | app/api/crawl/route.ts:68-70 | a page contributes as many URLs as it has links, plus one when its own URL is present and non-empty. A URL is contributed iff it is one of the links or that own URL |
| `CrawlPages.PageUrlsShape` | app/api/crawl/route.ts:68-70 | a page contributes its links in order, preceded by its own URL exactly when that URL is present and non-empty; missing links count as none |
| `CrawlPages.UrlsToScrapeMembers` | app/api/crawl/route.ts:67-71 | a URL is derived iff some page contributes it |
| `CrawlPages.UrlsToScrape` | app/api/crawl/route.ts:67-71 | the number of derived URLs is the sum over the pages, so nothing is deduplicated |
| `CrawlPages.UrlsToScrapeAppend` | app/api/crawl/route.ts:67 | the derivation of a concatenation of page lists is the concatenation of the derivations |
| `CrawlPages.PageUrlsInPlace` | app/api/crawl/route.ts:67-71 | the URLs of page i appear, in their own order, right after those of pages 0..i-1 |
| `CrawlCache.Matches` | app/api/crawl/route.ts:47 | a row matches only for exactly its url. For that url it matches at every time before its expiry instant, and never from the UTC day after its expiry day |
| `CrawlCache.Matching` | app/api/crawl/route.ts:46-49 | the lookup returns at most one content per row. It is empty iff no row has exactly that url and an expiry day, in UTC, no earlier than today |
| `CrawlCache.LiveThroughExpiryDay` | app/api/crawl/route.ts:47 | a row whose expiry instant has passed is still matched until its UTC expiry day ends |
| `CrawlCache.MatchingSound` | app/api/crawl/route.ts:46-49 | every content the lookup returns is that of a row with exactly that url and a UTC expiry day no earlier than today's |
| `CrawlCache.FirstMatchServed` | app/api/crawl/route.ts:51-52 | the first result is the content of the first live row for the url |
| `CrawlCache.MatchingAppend` | app/api/crawl/route.ts:103-106 | an appended row adds its content at the end of a lookup exactly when it matches |
| `CrawlCache.ExpiredStaysExpired` | app/api/crawl/route.ts:47 | a url without live rows has none later either |
| `CrawlCache.InsertedRowServed` | app/api/crawl/route.ts:100-106 | after a miss at time t, the inserted row is the only result of the lookup for the same url at every time from t to the end of the UTC day of t + 7 days |
| `CrawlCache.InsertedRowExpires` | app/api/crawl/route.ts:47 | from the UTC day after that on, the inserted row changes no lookup |
| `CrawlCache.OtherUrlUnaffected` | app/api/crawl/route.ts:47-48 | a row for a different url string, even one that differs only by a trailing slash, changes no lookup |
| `CrawlCache.Database.Select` | app/api/crawl/route.ts:46-49 | returns `Matching` of the current rows |
| `CrawlCache.Database.Insert` | app/api/crawl/route.ts:103-106 | appends the row and changes nothing else |
| `CrawlScrape.Retry` | app/api/crawl/route.ts:75-96 | at most 3 attempts, every attempt before the last one failed. A success is `{url, markdown}` of the first successful attempt; a failure means all three failed, with the third attempt's error |
| `CrawlScrape.ScrapeOne` | app/api/crawl/route.ts:74-97 | one URL gets between 1 and 3 attempts, each but the last a failure. It succeeds iff one of its first three attempts succeeds, with `{url, markdown}` of the first success; otherwise it fails with the third attempt's error |
| `CrawlScrape.FirstSuccessWins` | app/api/crawl/route.ts:83-89 | if attempt k <= 3 is the first success, the item comes from attempt k and exactly k attempts are made |
| `CrawlScrape.ExhaustedRetriesFail` | app/api/crawl/route.ts:90-93 | if all three attempts fail, the third error is propagated after exactly three attempts |
| `CrawlScrape.ScrapeWithRetry` | app/api/crawl/route.ts:75-96 | the `while (retries > 0)` loop returns what `Retry` specifies and makes one scrape call per attempt, numbered 1.. |
| `CrawlScrape.ScrapeBatch` | app/api/crawl/route.ts:73-98 | the batch succeeds iff no URL exhausts its retries, and then holds, for every URL in order, the page of its first successful attempt. Its calls are `BatchCalls`: every URL's attempts, URL after URL, all of them scrape calls |
| `CrawlScrape.BatchItemsInOrder` | app/api/crawl/route.ts:73-98 | item i of a successful batch carries URL i |
| `CrawlScrape.ScrapeCallsBounded` | app/api/crawl/route.ts:75-96 | a batch of n URLs makes between n and 3n scrape calls in total |
| `CrawlScrape.BatchCallsStepAt` | app/api/crawl/route.ts:73-97 | the calls for the first i + 1 URLs are those for the first i, then the attempts at URL i, whether or not an earlier URL failed |
| `CrawlScrape.BatchCallsPrefix` | app/api/crawl/route.ts:73-97 | the calls for the first j URLs are a prefix of the calls for the whole batch |
| `CrawlScrape.BatchCallsInPlace` | app/api/crawl/route.ts:73-97 | for each URL i, the batch's calls hold URL i's 1 to 3 attempts, numbered from 1, right after the calls for the URLs before it |
| `CrawlScrape.ScrapeAll` | app/api/crawl/route.ts:73-98 | the loop over the URLs returns what `ScrapeBatch` specifies: the pages or the first failure, and `BatchCalls`, the scrape calls of every attempt, URL by URL |
| `CrawlRoute.Miss` | app/api/crawl/route.ts:55-108 | after a miss the first call is the crawl; the response is 200 or 500. It is 200 iff the crawl returned an array of pages and no derived URL ran out of retries; then the content is the batch's pages. A 200 appends one row (request url, response content, expiry now + 7 days); a 500 leaves the table unchanged |
| `CrawlRoute.Lookup` | app/api/crawl/route.ts:46-108 | the `SELECT` is the first call. The response is 200 or 500; the table is unchanged, or a 200 appends one row keyed by the request url, holding the response content and expiring in 7 days |
| `CrawlRoute.Serve` | app/api/crawl/route.ts:36-111 | after the gate the body is read first and the response is 200, 400 or 500. The table is either unchanged or gains one row at the end, keyed by the body's url, holding the response content and expiring in 7 days |
| `CrawlRoute.ClientIp` | app/api/crawl/route.ts:29 | the client is the whole `x-forwarded-for` header when present. Every request without it is the client `unknown`, so all such requests share one counter |
| `CrawlRoute.Handle` | app/api/crawl/route.ts:27-113 | every request advances the limiter as `LimitStep` does. The response is 429 iff the limiter refused, and is always 200, 400, 429 or 500. An allowed request gets `Serve`'s response, calls and table |
| `CrawlRoute.RateLimitedRequestTouchesNothing` | app/api/crawl/route.ts:29-33 | a refused request gets 429 with no call after the limiter's `INCR`, not even reading the body, and the table unchanged |
| `CrawlRoute.InvalidInputTouchesNothing` | app/api/crawl/route.ts:36-40 | invalid input gets 400 after reading the body, with no database, crawl or scrape call |
| `CrawlRoute.CacheHitServedVerbatim` | app/api/crawl/route.ts:46-53 | on a hit the response is the first live row's content; the only calls are the body read and the `SELECT`, and the table is unchanged |
| `CrawlRoute.ServeOnMiss` | app/api/crawl/route.ts:46-56 | on a miss the handler reads the body, issues the `SELECT`, and then does exactly what `Miss` does |
| `CrawlRoute.MissCrawlsOnce` | app/api/crawl/route.ts:56-98 | after a miss, no call but the first is a crawl |
| `CrawlRoute.CrawlOnceOnMiss` | app/api/crawl/route.ts:46-56 | on a miss, including one where only expired rows exist, the crawler is called exactly once, with the validated url and limit |
| `CrawlRoute.FailuresAreNotCached` | app/api/crawl/route.ts:59-111 | a crawl error, a `data` field that is not an array, or any URL out of retries gives 500 and inserts no row |
| `CrawlRoute.FullSuccessIsCached` | app/api/crawl/route.ts:56-108 | a miss whose crawl returns pages, where every derived URL succeeds within three attempts, gives 200 and appends one row with the response content, even after failed attempts |
| `CrawlRoute.UrlSucceeds` | app/api/crawl/route.ts:75-96 | the retry loop of a URL with a successful attempt among its first three succeeds |
| `CrawlRoute.NoUrlOutOfRetries` | app/api/crawl/route.ts:75-96 | a URL with a successful attempt among its first three never aborts the request |
| `CrawlRoute.SuccessCachesOneRow` | app/api/crawl/route.ts:100-108 | a successful miss appends exactly one row: key = the request url, content = the response, expiry = now + 7 days. The content has one item per derived URL, in order |
| `CrawlRoute.RepeatedRequestHitsCache` | app/api/crawl/route.ts:46-106 | repeating a successfully crawled request, until the end of the UTC day 7 days later, returns the same content from the cache, with no crawl or scrape |
| `CrawlRoute.CrawlAndCache` | app/api/crawl/route.ts:55-108 | the in-place miss path gives `Miss`'s response, calls and table |
| `CrawlRoute.LookupOrCrawl` | app/api/crawl/route.ts:46-108 | the in-place lookup and miss path gives `Lookup`'s response, calls and table |
| `CrawlRoute.ServeRequest` | app/api/crawl/route.ts:36-111 | the in-place handler after the gate gives `Serve`'s response, calls and table |
| `CrawlRoute.Post` | app/api/crawl/route.ts:27-113 | the in-place handler gives `Handle`'s response and calls, and leaves both stores as `Handle` says |

## Left out

- The presentation layer (`components/landing-page.tsx`) is not part of this model.
- Network behaviour of the Firecrawl, libsql and Upstash Redis clients is not modelled. The crawler and the scraper are oracles; the database and Redis are in-memory stores.
- Errors from the database or from Redis are not modelled. A failing `SELECT` or `INSERT` would give 500; a failing Redis call escapes the handler.
- The case where `request.json()` throws is not modelled: it happens outside the `try`, and the body is modelled as already parsed JSON.
- JSON serialisation of the cached content is treated as the identity on the list of `{url, markdown}` items.
- JSON numbers are modelled as exact reals. Rounding to double precision while parsing is not modelled.
- The URL syntax check of `z.string().url()` is the oracle `isValidUrl`.
- Calendar arithmetic is replaced by integer seconds in UTC, with seven days as 604800 and a day as 86400; `setDate` on a local-time `Date` across a daylight-saving change is not modelled, nor are milliseconds.
- `CrawlCache.Matches`: the day-by-day text comparison holds for four-digit years only; the extended `toISOString()` format for years outside 0000..9999 is not modelled.
- `CrawlRoute.Miss`: one request runs at a single instant. The source takes the time for `expires_at` with `new Date()` after the crawl and every scrape, including the 1-second backoffs and render delays; the model stamps the row with the time of the `SELECT`, so it does not capture an expiry that is later by the duration of the crawl and the scrapes.
- The 1-second pause between scrape attempts and the `waitFor: 5000` render delay are not modelled. Only the number of attempts is.
- Logging is not modelled.
- `RateLimit.RateLimit`: `INCR` and `EXPIRE` form one sequential step, so a crash between them (a counter left without an expiry) is not modelled. `Bounded` states the invariant that such a crash would break.
- `RateLimit.CounterStore.Incr`: Redis's 64-bit overflow error is not modelled; counts are unbounded.
- `CrawlScrape.ScrapeAll`: `Promise.all` runs the scrapes concurrently; the model runs them one URL after another. Every URL is still attempted, since nothing cancels the others. The reported error is that of the first failed URL in order; which error it is cannot be observed, because the response is a fixed 500 message.
- `CrawlCache.Database.Select`: the `SELECT` has no `ORDER BY`, so the model assumes rows come back in insertion order when it takes the first as `rows[0]`.
- `CrawlRoute.Handle`: the counter store and the table share one clock. The `remaining` count from the limiter is computed but not used by the handler, as in the source.
