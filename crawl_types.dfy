/** Values shared by the steps of the crawl request handler (app/api/crawl/route.ts). */
module CrawlTypes {
  import opened Wrappers

  /** One item of `scrapedContent`: a scraped URL and the markdown the scraper returned, if any. */
  datatype ScrapedPage = ScrapedPage(url: string, markdown: Option<string>)

  /**
   * An interaction of the handler with the outside world, in the order the
   * handler performs it: reading the request body, querying the cache table,
   * calling the crawler, one scrape attempt, and inserting a cache row.
   */
  datatype Call =
    | ReadBody
    | SelectCache(url: string)
    | CrawlCall(url: string, limit: int)
    | ScrapeCall(url: string, attempt: nat)
    | InsertCache(url: string, content: seq<ScrapedPage>, expiresAt: int)
}
