/**
 * Scraping the derived URLs (app/api/crawl/route.ts): each URL is tried at
 * most three times, and the batch succeeds only if every URL does. The
 * scraper is an oracle: its answer may depend on the URL's position in the
 * batch and on the attempt number, so repeated URLs are scraped independently.
 */
module CrawlScrape {
  import opened Wrappers
  import opened CrawlTypes

  const MaxAttempts: nat := 3

  /** What one `scrapeUrl` call produced: an error (thrown or returned) or the page's markdown. */
  datatype ScrapeOutcome = ScrapeError(error: string) | ScrapeDone(markdown: Option<string>)

  /** The scraper, given the position of the URL in the batch, the URL and the attempt number (from 1). */
  type Scraper = (nat, string, nat) -> ScrapeOutcome

  /** The result of the retry loop for one URL, and how many attempts it made. */
  datatype Attempted = Attempted(outcome: Result<ScrapedPage>, attempts: nat)

  /**
   * The retry loop for one URL once `failed` attempts have failed: the first
   * successful attempt gives the item; the error of the last allowed attempt
   * is propagated.
   */
  function Retry(scrape: Scraper, idx: nat, url: string, failed: nat): (a: Attempted)
    requires failed < MaxAttempts
    ensures failed < a.attempts <= MaxAttempts
    ensures forall k :: failed < k < a.attempts ==> scrape(idx, url, k).ScrapeError?
    ensures a.outcome.Ok? ==>
      scrape(idx, url, a.attempts).ScrapeDone? &&
      a.outcome.value == ScrapedPage(url, scrape(idx, url, a.attempts).markdown)
    ensures a.outcome.Err? ==>
      a.attempts == MaxAttempts && scrape(idx, url, MaxAttempts) == ScrapeError(a.outcome.error)
    decreases MaxAttempts - failed
  {
    var attempt := failed + 1;
    match scrape(idx, url, attempt)
    case ScrapeDone(md) => Attempted(Ok(ScrapedPage(url, md)), attempt)
    case ScrapeError(e) =>
      if attempt == MaxAttempts then Attempted(Err(e), attempt) else Retry(scrape, idx, url, attempt)
  }

  /** The whole retry loop for the URL at position `idx`. */
  function ScrapeOne(scrape: Scraper, idx: nat, url: string): (a: Attempted)
    ensures 1 <= a.attempts <= MaxAttempts
    ensures forall k :: 1 <= k < a.attempts ==> scrape(idx, url, k).ScrapeError?
    ensures a.outcome.Ok? <==> exists k :: 1 <= k <= MaxAttempts && scrape(idx, url, k).ScrapeDone?
    ensures a.outcome.Ok? ==>
      scrape(idx, url, a.attempts).ScrapeDone? &&
      a.outcome.value == ScrapedPage(url, scrape(idx, url, a.attempts).markdown)
    ensures a.outcome.Err? ==>
      a.attempts == MaxAttempts && scrape(idx, url, MaxAttempts) == ScrapeError(a.outcome.error)
  {
    Retry(scrape, idx, url, 0)
  }

  /** If attempt `k` is the first to succeed, the item is that attempt's result and no further attempt is made. */
  lemma FirstSuccessWins(scrape: Scraper, idx: nat, url: string, k: nat)
    requires 1 <= k <= MaxAttempts && scrape(idx, url, k).ScrapeDone?
    requires forall j :: 1 <= j < k ==> scrape(idx, url, j).ScrapeError?
    ensures ScrapeOne(scrape, idx, url) == Attempted(Ok(ScrapedPage(url, scrape(idx, url, k).markdown)), k)
  {
  }

  /** If all three attempts fail, the error of the third is propagated. */
  lemma ExhaustedRetriesFail(scrape: Scraper, idx: nat, url: string)
    requires forall j :: 1 <= j <= MaxAttempts ==> scrape(idx, url, j).ScrapeError?
    ensures ScrapeOne(scrape, idx, url) == Attempted(Err(scrape(idx, url, MaxAttempts).error), MaxAttempts)
  {
  }

  /** The scrape calls of `n` attempts at one URL. */
  function AttemptCalls(url: string, n: nat): (r: seq<Call>)
    ensures |r| == n
    ensures forall k :: 0 <= k < n ==> r[k] == ScrapeCall(url, k + 1)
  {
    seq(n, k requires 0 <= k < n => ScrapeCall(url, k + 1))
  }

  /** The `while (retries > 0)` loop for one URL. */
  method ScrapeWithRetry(scrape: Scraper, idx: nat, url: string) returns (a: Attempted, calls: seq<Call>)
    ensures a == ScrapeOne(scrape, idx, url)
    ensures calls == AttemptCalls(url, a.attempts)
  {
    var retries := MaxAttempts;
    var lastError := "";
    calls := [];
    while retries > 0
      invariant 0 <= retries <= MaxAttempts
      invariant calls == AttemptCalls(url, MaxAttempts - retries)
      invariant retries > 0 ==> ScrapeOne(scrape, idx, url) == Retry(scrape, idx, url, MaxAttempts - retries)
      invariant retries == 0 ==> ScrapeOne(scrape, idx, url) == Attempted(Err(lastError), MaxAttempts)
    {
      var attempt := MaxAttempts - retries + 1;
      var response := scrape(idx, url, attempt);
      calls := calls + [ScrapeCall(url, attempt)];
      match response {
        case ScrapeDone(md) =>
          return Attempted(Ok(ScrapedPage(url, md)), attempt), calls;
        case ScrapeError(e) =>
          retries := retries - 1;
          lastError := e;
          if retries == 0 {
            return Attempted(Err(e), attempt), calls;
          }
      }
    }
    a := Attempted(Err(lastError), MaxAttempts);
  }

  /** The outcome of a batch of scrapes and the scrape calls it made. */
  datatype Batch = Batch(content: Result<seq<ScrapedPage>>, calls: seq<Call>)

  /** The scrape calls of a batch: each URL's attempts, URL after URL, whether or not an earlier URL failed. */
  function BatchCalls(scrape: Scraper, urls: seq<string>): seq<Call>
    decreases |urls|
  {
    if urls == [] then []
    else
      var n := |urls| - 1;
      BatchCalls(scrape, urls[..n]) + AttemptCalls(urls[n], ScrapeOne(scrape, n, urls[n]).attempts)
  }

  /**
   * `Promise.all(urlsToScrape.map(...))`: every URL's retry loop runs, in
   * order; the batch holds every item when all succeeded, and otherwise the
   * error of the first URL that failed.
   */
  function ScrapeBatch(scrape: Scraper, urls: seq<string>): (b: Batch)
    ensures b.content.Ok? <==> forall i :: 0 <= i < |urls| ==> ScrapeOne(scrape, i, urls[i]).outcome.Ok?
    ensures b.content.Ok? ==> |b.content.value| == |urls|
    ensures b.content.Ok? ==> forall i :: 0 <= i < |urls| ==> b.content.value[i] == ScrapeOne(scrape, i, urls[i]).outcome.value
    ensures forall c :: c in b.calls ==> c.ScrapeCall?
    ensures b.calls == BatchCalls(scrape, urls)
    decreases |urls|
  {
    if urls == [] then Batch(Ok([]), [])
    else
      var n := |urls| - 1;
      var prev := ScrapeBatch(scrape, urls[..n]);
      var a := ScrapeOne(scrape, n, urls[n]);
      var calls := prev.calls + AttemptCalls(urls[n], a.attempts);
      match prev.content
      case Err(e) => Batch(Err(e), calls)
      case Ok(items) =>
        match a.outcome
        case Err(e) => Batch(Err(e), calls)
        case Ok(item) => Batch(Ok(items + [item]), calls)
  }

  /** Every item of a successful batch carries the URL it was scraped from. */
  lemma BatchItemsInOrder(scrape: Scraper, urls: seq<string>)
    requires ScrapeBatch(scrape, urls).content.Ok?
    ensures forall i :: 0 <= i < |urls| ==> ScrapeBatch(scrape, urls).content.value[i].url == urls[i]
  {
  }

  /** A batch of n URLs makes between n and 3n scrape calls. */
  lemma {:induction false} ScrapeCallsBounded(scrape: Scraper, urls: seq<string>)
    ensures |urls| <= |ScrapeBatch(scrape, urls).calls| <= MaxAttempts * |urls|
    decreases |urls|
  {
    if urls != [] {
      ScrapeCallsBounded(scrape, urls[..|urls| - 1]);
    }
  }

  /** The calls of the batch over the first `j` URLs begin the calls of the whole batch. */
  lemma {:induction false} BatchCallsPrefix(scrape: Scraper, urls: seq<string>, j: nat)
    requires j <= |urls|
    ensures var pre := BatchCalls(scrape, urls[..j]);
      |pre| <= |BatchCalls(scrape, urls)| && BatchCalls(scrape, urls)[..|pre|] == pre
    decreases |urls| - j
  {
    if j == |urls| {
      assert urls[..j] == urls;
    } else {
      var n := |urls| - 1;
      assert urls[..n][..j] == urls[..j];
      BatchCallsPrefix(scrape, urls[..n], j);
      PrefixOfPrefix(BatchCalls(scrape, urls[..j]), BatchCalls(scrape, urls[..n]),
        AttemptCalls(urls[n], ScrapeOne(scrape, n, urls[n]).attempts));
    }
  }

  /** A prefix of `mid` is a prefix of `mid + tail`. */
  lemma PrefixOfPrefix(pre: seq<Call>, mid: seq<Call>, tail: seq<Call>)
    requires |pre| <= |mid| && mid[..|pre|] == pre
    ensures |pre| <= |mid + tail| && (mid + tail)[..|pre|] == pre
  {
    assert (mid + tail)[..|pre|] == mid[..|pre|];
  }

  /** The segment after a prefix `pre + tail` of `all` is `tail`. */
  lemma SegmentOfPrefix(all: seq<Call>, pre: seq<Call>, tail: seq<Call>, n: nat)
    requires n == |tail|
    requires |pre + tail| <= |all| && all[..|pre + tail|] == pre + tail
    ensures |pre| + n <= |all| && all[|pre|..|pre| + n] == tail
  {
    assert all[|pre|..|pre| + n] == all[..|pre + tail|][|pre|..];
  }

  /**
   * Every URL is scraped, in order, by its own retry loop: the calls for URL
   * `i` are its 1 to 3 attempts, numbered from 1, right after the calls for
   * the URLs before it.
   */
  lemma BatchCallsInPlace(scrape: Scraper, urls: seq<string>, i: nat)
    requires i < |urls|
    ensures var off := |BatchCalls(scrape, urls[..i])|;
      var n := ScrapeOne(scrape, i, urls[i]).attempts;
      1 <= n <= MaxAttempts &&
      off + n <= |BatchCalls(scrape, urls)| &&
      BatchCalls(scrape, urls)[off..off + n] == AttemptCalls(urls[i], n)
  {
    BatchCallsStepAt(scrape, urls, i);
    BatchCallsPrefix(scrape, urls, i + 1);
    var n := ScrapeOne(scrape, i, urls[i]).attempts;
    SegmentOfPrefix(BatchCalls(scrape, urls), BatchCalls(scrape, urls[..i]), AttemptCalls(urls[i], n), n);
  }

  /** The calls for the first `i + 1` URLs are those for the first `i`, then URL `i`'s attempts. */
  lemma BatchCallsStepAt(scrape: Scraper, urls: seq<string>, i: nat)
    requires i < |urls|
    ensures BatchCalls(scrape, urls[..i + 1]) ==
      BatchCalls(scrape, urls[..i]) + AttemptCalls(urls[i], ScrapeOne(scrape, i, urls[i]).attempts)
  {
    var upto := urls[..i + 1];
    assert upto[..i] == urls[..i] && upto[i] == urls[i];
  }

  /** `Promise.all(urlsToScrape.map(...))`, run one URL after the other. */
  method ScrapeAll(scrape: Scraper, urls: seq<string>) returns (b: Batch)
    ensures b == ScrapeBatch(scrape, urls)
  {
    b := Batch(Ok([]), []);
    var i := 0;
    while i < |urls|
      invariant 0 <= i <= |urls|
      invariant b == ScrapeBatch(scrape, urls[..i])
    {
      var a, calls := ScrapeWithRetry(scrape, i, urls[i]);
      assert urls[..i + 1][..i] == urls[..i] && urls[..i + 1][i] == urls[i] && |urls[..i + 1]| - 1 == i;
      var content := match b.content
        case Err(e) => Err(e)
        case Ok(items) => if a.outcome.Err? then Err(a.outcome.error) else Ok(items + [a.outcome.value]);
      b := Batch(content, b.calls + calls);
      i := i + 1;
    }
    assert urls[..i] == urls;
  }
}
