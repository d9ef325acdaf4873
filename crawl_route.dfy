/**
 * The `POST` handler of app/api/crawl/route.ts: rate-limit gate, input
 * validation, cache lookup, crawl, URL derivation, scraping with retry, and a
 * cache write on full success. The crawler, the scraper and the URL syntax
 * check are oracles passed in by the caller; the clock is an integer.
 */
module CrawlRoute {
  import opened Wrappers
  import opened CrawlTypes
  import RateLimit
  import opened CrawlInput
  import opened CrawlPages
  import opened CrawlCache
  import opened CrawlScrape

  /** The `data` field of a crawl result: missing, not an array, or the pages. */
  datatype CrawlData = NoData | NotArray | Pages(pages: seq<PageData>)

  /** What `crawlUrl` produced: an error (thrown or returned) or a result with its `data` field. */
  datatype CrawlOutcome = CrawlFailed(error: string) | CrawlDone(data: CrawlData)

  /** The crawler, given the seed URL and the page limit. */
  type Crawler = (string, int) -> CrawlOutcome

  /** The collaborators of the handler. */
  datatype Services = Services(isValidUrl: string -> bool, crawl: Crawler, scrape: Scraper)

  datatype ResponseBody = ErrorMessage(error: string) | Content(scrapedContent: seq<ScrapedPage>)

  datatype Response = Response(status: int, body: ResponseBody)

  const TooManyRequests: Response := Response(429, ErrorMessage("Too many requests"))
  const InvalidInput: Response := Response(400, ErrorMessage("Invalid input"))
  const CrawlFailure: Response := Response(500, ErrorMessage("Failed to crawl and scrape"))

  /** The two stores the handler changes: the rate-limit counters and the cache table. */
  datatype Stores = Stores(counters: RateLimit.Store, rows: seq<Row>)

  /** The response, the cache table afterwards, and the calls made, once the gate let the request through. */
  datatype Served = Served(response: Response, rows: seq<Row>, calls: seq<Call>)

  /** The response, both stores afterwards, and the calls made, for a whole request. */
  datatype Outcome = Outcome(response: Response, stores: Stores, calls: seq<Call>)

  /** `request.headers.get('x-forwarded-for') ?? 'unknown'`. */
  function ClientIp(forwardedFor: Option<string>): (ip: string)
    ensures forwardedFor.Some? ==> ip == forwardedFor.value
    ensures forwardedFor.None? ==> ip == "unknown"
  {
    forwardedFor.GetOr("unknown")
  }

  /** Some derived URL runs out of retries, which aborts the request with 500. */
  predicate ScrapeFails(env: Services, pages: seq<PageData>) {
    var urls := UrlsToScrape(pages);
    exists i :: 0 <= i < |urls| && ScrapeOne(env.scrape, i, urls[i]).outcome.Err?
  }

  /** Every derived URL has a successful attempt among its first three. */
  predicate EveryUrlSucceeds(env: Services, urls: seq<string>) {
    forall i :: 0 <= i < |urls| ==> exists k :: 1 <= k <= MaxAttempts && env.scrape(i, urls[i], k).ScrapeDone?
  }

  /** The handler after a cache miss: crawl, derive the URLs, scrape them all, cache the result on success. */
  function Miss(rows: seq<Row>, req: CrawlRequest, now: int, env: Services): (s: Served)
    ensures s.response.status == 200 || s.response == CrawlFailure
    ensures |s.calls| > 0 && s.calls[0] == CrawlCall(req.url, req.limit)
    ensures s.response.status == 200 ==>
      s.response.body.Content? && s.rows == rows + [Row(req.url, s.response.body.scrapedContent, now + SevenDays)]
    ensures s.response.status != 200 ==> s.rows == rows
    ensures var c := env.crawl(req.url, req.limit);
      s.response.status == 200 <==> c.CrawlDone? && c.data.Pages? && !ScrapeFails(env, c.data.pages)
    ensures var c := env.crawl(req.url, req.limit);
      s.response.status == 200 ==>
        c.CrawlDone? && c.data.Pages? &&
        ScrapeBatch(env.scrape, UrlsToScrape(c.data.pages)).content == Ok(s.response.body.scrapedContent)
  {
    var crawled := [CrawlCall(req.url, req.limit)];
    match env.crawl(req.url, req.limit)
    case CrawlFailed(_) => Served(CrawlFailure, rows, crawled)
    case CrawlDone(data) =>
      if !data.Pages? then Served(CrawlFailure, rows, crawled)
      else
        var batch := ScrapeBatch(env.scrape, UrlsToScrape(data.pages));
        var scraped := crawled + batch.calls;
        match batch.content
        case Err(_) => Served(CrawlFailure, rows, scraped)
        case Ok(content) =>
          var row := Row(req.url, content, now + SevenDays);
          Served(Response(200, Content(content)), rows + [row], scraped + [InsertCache(row.url, row.content, row.expiresAt)])
  }

  /** The cache lookup for a validated request: the first live row on a hit, `Miss` otherwise. */
  function Lookup(rows: seq<Row>, req: CrawlRequest, now: int, env: Services): (s: Served)
    ensures s.response.status == 200 || s.response == CrawlFailure
    ensures |s.calls| > 0 && s.calls[0] == SelectCache(req.url)
    ensures s.rows == rows || (
      s.response.body.Content? && s.rows == rows + [Row(req.url, s.response.body.scrapedContent, now + SevenDays)])
  {
    var hits := Matching(rows, req.url, now);
    if |hits| > 0 then Served(Response(200, Content(hits[0])), rows, [SelectCache(req.url)])
    else
      var m := Miss(rows, req, now, env);
      Served(m.response, m.rows, [SelectCache(req.url)] + m.calls)
  }

  /** The handler from reading the body on, once the rate limiter allowed the request. */
  function Serve(rows: seq<Row>, body: Body, now: int, env: Services): (s: Served)
    ensures s.response.status == 200 || s.response == InvalidInput || s.response == CrawlFailure
    ensures |s.calls| > 0 && s.calls[0] == ReadBody
    ensures s.rows == rows || (
      |s.rows| == |rows| + 1 && s.rows[..|rows|] == rows &&
      s.response == Response(200, Content(s.rows[|rows|].content)) &&
      body.JsonObject? && body.url == JString(s.rows[|rows|].url) &&
      s.rows[|rows|].expiresAt == now + SevenDays)
  {
    match Validate(body, env.isValidUrl)
    case None => Served(InvalidInput, rows, [ReadBody])
    case Some(req) =>
      var l := Lookup(rows, req, now, env);
      assert l.rows != rows ==> l.rows[..|rows|] == rows;
      Served(l.response, l.rows, [ReadBody] + l.calls)
  }

  /** One whole `POST` request. */
  function Handle(st: Stores, forwardedFor: Option<string>, body: Body, now: int, env: Services): (o: Outcome)
    ensures o.stores.counters == RateLimit.LimitStep(st.counters, ClientIp(forwardedFor), now).counters
    ensures o.response.status == 429 <==> !RateLimit.LimitStep(st.counters, ClientIp(forwardedFor), now).success
    ensures o.response.status in {200, 400, 429, 500}
    ensures RateLimit.LimitStep(st.counters, ClientIp(forwardedFor), now).success ==>
      var s := Serve(st.rows, body, now, env);
      o.response == s.response && o.calls == s.calls && o.stores.rows == s.rows
  {
    var gate := RateLimit.LimitStep(st.counters, ClientIp(forwardedFor), now);
    if !gate.success then Outcome(TooManyRequests, Stores(gate.counters, st.rows), [])
    else
      var s := Serve(st.rows, body, now, env);
      Outcome(s.response, Stores(gate.counters, s.rows), s.calls)
  }

  /** A refused request gets 429 before its body is read: no call follows the limiter's `INCR`, and the table is unchanged. */
  lemma RateLimitedRequestTouchesNothing(st: Stores, forwardedFor: Option<string>, body: Body, now: int, env: Services)
    requires !RateLimit.LimitStep(st.counters, ClientIp(forwardedFor), now).success
    ensures var o := Handle(st, forwardedFor, body, now, env);
      o.response == TooManyRequests && o.calls == [] && o.stores.rows == st.rows
  {
  }

  /** Invalid input gets 400 after the body is read, with no database, crawl or scrape call. */
  lemma InvalidInputTouchesNothing(rows: seq<Row>, body: Body, now: int, env: Services)
    requires Validate(body, env.isValidUrl).None?
    ensures Serve(rows, body, now, env) == Served(InvalidInput, rows, [ReadBody])
  {
  }

  /**
   * On a cache hit the response is the content of the first live row for the
   * exact url; neither crawler nor scraper is called and the table is unchanged.
   */
  lemma CacheHitServedVerbatim(rows: seq<Row>, body: Body, now: int, env: Services, req: CrawlRequest, i: nat)
    requires Validate(body, env.isValidUrl) == Some(req)
    requires i < |rows| && Matches(rows[i], req.url, now)
    requires forall j :: 0 <= j < i ==> !Matches(rows[j], req.url, now)
    ensures Serve(rows, body, now, env) == Served(Response(200, Content(rows[i].content)), rows, [ReadBody, SelectCache(req.url)])
  {
    FirstMatchServed(rows, req.url, now, i);
  }

  /** On a miss, `Serve` is the body read and the lookup followed by `Miss`. */
  lemma ServeOnMiss(rows: seq<Row>, body: Body, now: int, env: Services, req: CrawlRequest)
    requires Validate(body, env.isValidUrl) == Some(req)
    requires Matching(rows, req.url, now) == []
    ensures var m := Miss(rows, req, now, env);
      Serve(rows, body, now, env) == Served(m.response, m.rows, [ReadBody, SelectCache(req.url)] + m.calls)
  {
    var m := Miss(rows, req, now, env);
    assert [ReadBody] + ([SelectCache(req.url)] + m.calls) == [ReadBody, SelectCache(req.url)] + m.calls;
  }

  /** After a miss, the only crawl call is the first call. */
  lemma MissCrawlsOnce(rows: seq<Row>, req: CrawlRequest, now: int, env: Services)
    ensures var calls := Miss(rows, req, now, env).calls;
      forall k :: 1 <= k < |calls| ==> !calls[k].CrawlCall?
  {
    var calls := Miss(rows, req, now, env).calls;
    var c := env.crawl(req.url, req.limit);
    if c.CrawlDone? && c.data.Pages? {
      var batch := ScrapeBatch(env.scrape, UrlsToScrape(c.data.pages));
      var sc := batch.calls;
      forall k | 1 <= k < |calls|
        ensures !calls[k].CrawlCall?
      {
        if k < 1 + |sc| {
          assert calls[k] == sc[k - 1] && sc[k - 1] in sc;
        } else {
          assert calls == [CrawlCall(req.url, req.limit)] + sc + [calls[k]];
        }
      }
    }
  }

  /**
   * On a miss (no row, or only expired ones) the crawler is called exactly
   * once, third, with the validated url and limit.
   */
  lemma CrawlOnceOnMiss(rows: seq<Row>, body: Body, now: int, env: Services, req: CrawlRequest)
    requires Validate(body, env.isValidUrl) == Some(req)
    requires Matching(rows, req.url, now) == []
    ensures var calls := Serve(rows, body, now, env).calls;
      |calls| >= 3 && calls[0] == ReadBody && calls[1] == SelectCache(req.url) &&
      calls[2] == CrawlCall(req.url, req.limit) &&
      forall k :: 3 <= k < |calls| ==> !calls[k].CrawlCall?
  {
    var m := Miss(rows, req, now, env);
    MissCrawlsOnce(rows, req, now, env);
    ServeOnMiss(rows, body, now, env, req);
    NoCrawlAfter([ReadBody, SelectCache(req.url)], m.calls);
  }

  /** Prefixing a trace whose only crawl call is its first keeps that call the only one after the prefix. */
  lemma NoCrawlAfter(pre: seq<Call>, calls: seq<Call>)
    requires forall k :: 1 <= k < |calls| ==> !calls[k].CrawlCall?
    ensures forall k :: |pre| + 1 <= k < |pre + calls| ==> !(pre + calls)[k].CrawlCall?
  {
    forall k | |pre| + 1 <= k < |pre + calls|
      ensures !(pre + calls)[k].CrawlCall?
    {
      assert (pre + calls)[k] == calls[k - |pre|];
    }
  }

  /** A crawl error, a `data` field that is not an array, or one URL out of retries: 500 and no row inserted. */
  lemma FailuresAreNotCached(rows: seq<Row>, body: Body, now: int, env: Services, req: CrawlRequest)
    requires Validate(body, env.isValidUrl) == Some(req)
    requires Matching(rows, req.url, now) == []
    requires
      || env.crawl(req.url, req.limit).CrawlFailed?
      || !env.crawl(req.url, req.limit).data.Pages?
      || ScrapeFails(env, env.crawl(req.url, req.limit).data.pages)
    ensures var s := Serve(rows, body, now, env);
      s.response == CrawlFailure && s.rows == rows
  {
    ServeOnMiss(rows, body, now, env, req);
    var c := env.crawl(req.url, req.limit);
    if c.CrawlDone? && c.data.Pages? {
      var urls := UrlsToScrape(c.data.pages);
      var i :| 0 <= i < |urls| && ScrapeOne(env.scrape, i, urls[i]).outcome.Err?;
      assert !ScrapeBatch(env.scrape, urls).content.Ok?;
    }
  }

  /**
   * Conversely, a miss whose crawl returns pages, and where every derived URL
   * has a successful attempt among its first three, gives 200 and caches the
   * content, even when earlier attempts failed.
   */
  lemma FullSuccessIsCached(rows: seq<Row>, body: Body, now: int, env: Services, req: CrawlRequest)
    requires Validate(body, env.isValidUrl) == Some(req)
    requires Matching(rows, req.url, now) == []
    requires env.crawl(req.url, req.limit).CrawlDone? && env.crawl(req.url, req.limit).data.Pages?
    requires EveryUrlSucceeds(env, UrlsToScrape(env.crawl(req.url, req.limit).data.pages))
    ensures var s := Serve(rows, body, now, env);
      s.response.status == 200 && s.response.body.Content? &&
      s.rows == rows + [Row(req.url, s.response.body.scrapedContent, now + SevenDays)]
  {
    ServeOnMiss(rows, body, now, env, req);
    NoUrlOutOfRetries(env, env.crawl(req.url, req.limit).data.pages);
  }

  /** A URL with a successful attempt among its first three never runs out of retries. */
  lemma NoUrlOutOfRetries(env: Services, pages: seq<PageData>)
    requires EveryUrlSucceeds(env, UrlsToScrape(pages))
    ensures !ScrapeFails(env, pages)
  {
    var urls := UrlsToScrape(pages);
    forall i | 0 <= i < |urls|
      ensures ScrapeOne(env.scrape, i, urls[i]).outcome.Ok?
    {
      UrlSucceeds(env, urls, i);
    }
  }

  /** The URL at position `i` has a successful attempt among its first three, so its retry loop succeeds. */
  lemma UrlSucceeds(env: Services, urls: seq<string>, i: nat)
    requires EveryUrlSucceeds(env, urls) && i < |urls|
    ensures ScrapeOne(env.scrape, i, urls[i]).outcome.Ok?
  {
  }

  /**
   * On success the table gains exactly one row, keyed by the request url and
   * expiring in seven days, whose content is the response: one item per
   * derived URL, in order, each from that URL's first successful attempt.
   */
  lemma SuccessCachesOneRow(rows: seq<Row>, body: Body, now: int, env: Services, req: CrawlRequest)
    requires Validate(body, env.isValidUrl) == Some(req)
    requires Matching(rows, req.url, now) == []
    requires Serve(rows, body, now, env).response.status == 200
    ensures var c := env.crawl(req.url, req.limit);
      var s := Serve(rows, body, now, env);
      c.CrawlDone? && c.data.Pages? && s.response.body.Content? &&
      var urls := UrlsToScrape(c.data.pages);
      var content := s.response.body.scrapedContent;
      s.rows == rows + [Row(req.url, content, now + SevenDays)] &&
      |content| == |urls| &&
      forall i :: 0 <= i < |urls| ==>
        content[i].url == urls[i] && content[i] == ScrapeOne(env.scrape, i, urls[i]).outcome.value
  {
    ServeOnMiss(rows, body, now, env, req);
  }

  /**
   * A url cached by a successful request is served from the cache, with the
   * same content and without crawling, until the end of the UTC day seven
   * days later.
   */
  lemma RepeatedRequestHitsCache(rows: seq<Row>, body: Body, now: int, env: Services, req: CrawlRequest, later: int, env': Services)
    requires Validate(body, env.isValidUrl) == Some(req)
    requires Matching(rows, req.url, now) == []
    requires Serve(rows, body, now, env).response.status == 200
    requires now <= later && Day(later) <= Day(now + SevenDays)
    requires env'.isValidUrl == env.isValidUrl
    ensures var s := Serve(rows, body, now, env);
      Serve(s.rows, body, later, env') == Served(s.response, s.rows, [ReadBody, SelectCache(req.url)])
  {
    var s := Serve(rows, body, now, env);
    SuccessCachesOneRow(rows, body, now, env, req);
    InsertedRowServed(rows, req.url, s.response.body.scrapedContent, now, later);
  }

  /** The miss path of the handler, against the table in place. */
  method CrawlAndCache(db: Database, req: CrawlRequest, now: int, env: Services) returns (response: Response, calls: seq<Call>)
    modifies db
    ensures var m := Miss(old(db.rows), req, now, env);
      response == m.response && calls == m.calls && db.rows == m.rows
  {
    var crawlResult := env.crawl(req.url, req.limit);
    calls := [CrawlCall(req.url, req.limit)];
    if crawlResult.CrawlFailed? || !crawlResult.data.Pages? {
      return CrawlFailure, calls;
    }
    var urls := UrlsToScrape(crawlResult.data.pages);
    var batch := ScrapeAll(env.scrape, urls);
    calls := calls + batch.calls;
    if batch.content.Err? {
      return CrawlFailure, calls;
    }
    var scrapedContent := batch.content.value;
    var expiresAt := now + SevenDays;
    db.Insert(Row(req.url, scrapedContent, expiresAt));
    calls := calls + [InsertCache(req.url, scrapedContent, expiresAt)];
    response := Response(200, Content(scrapedContent));
  }

  /** The cache lookup and, on a miss, the crawl, against the table in place. */
  method LookupOrCrawl(db: Database, req: CrawlRequest, now: int, env: Services) returns (response: Response, calls: seq<Call>)
    modifies db
    ensures var l := Lookup(old(db.rows), req, now, env);
      response == l.response && calls == l.calls && db.rows == l.rows
  {
    var cached := db.Select(req.url, now);
    calls := [SelectCache(req.url)];
    if |cached| > 0 {
      return Response(200, Content(cached[0])), calls;
    }
    var missCalls;
    response, missCalls := CrawlAndCache(db, req, now, env);
    calls := calls + missCalls;
  }

  /** The handler from reading the body on, against the table in place. */
  method ServeRequest(db: Database, body: Body, now: int, env: Services) returns (response: Response, calls: seq<Call>)
    modifies db
    ensures var s := Serve(old(db.rows), body, now, env);
      response == s.response && calls == s.calls && db.rows == s.rows
  {
    var parsed := Validate(body, env.isValidUrl);
    if parsed.None? {
      return InvalidInput, [ReadBody];
    }
    var lookupCalls;
    response, lookupCalls := LookupOrCrawl(db, parsed.value, now, env);
    calls := [ReadBody] + lookupCalls;
  }

  /** The handler, changing the counter store and the table in place. */
  method Post(limiter: RateLimit.CounterStore, db: Database, forwardedFor: Option<string>, body: Body, now: int, env: Services)
    returns (response: Response, calls: seq<Call>)
    modifies limiter, db
    ensures var o := Handle(Stores(old(limiter.entries), old(db.rows)), forwardedFor, body, now, env);
      response == o.response && calls == o.calls && limiter.entries == o.stores.counters && db.rows == o.stores.rows
  {
    var success, remaining := RateLimit.RateLimit(limiter, ClientIp(forwardedFor), now);
    if !success {
      return TooManyRequests, [];
    }
    response, calls := ServeRequest(db, body, now, env);
  }
}
