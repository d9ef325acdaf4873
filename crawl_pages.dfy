/**
 * Derivation of the URLs to scrape from the pages the crawler returned
 * (`urlsToScrape` in app/api/crawl/route.ts): a flat map over the pages.
 */
module CrawlPages {
  import opened Wrappers

  datatype Metadata = Metadata(sourceURL: Option<string>, linksOnPage: Option<seq<string>>)

  /** One element of the crawler's `data` array. */
  datatype PageData = PageData(metadata: Option<Metadata>)

  /** `pageData.metadata?.linksOnPage || []` (an array, even an empty one, is truthy). */
  function Links(p: PageData): seq<string> {
    if p.metadata.Some? && p.metadata.value.linksOnPage.Some? then p.metadata.value.linksOnPage.value else []
  }

  /** `pageData.metadata?.sourceURL` is truthy: present and not the empty string. */
  predicate HasSource(p: PageData) {
    p.metadata.Some? && p.metadata.value.sourceURL.Some? && p.metadata.value.sourceURL.value != ""
  }

  /** The URLs one page contributes (`sourceUrl ? [sourceUrl, ...linksOnPage] : linksOnPage`). */
  function PageUrls(p: PageData): (r: seq<string>)
    ensures |r| == |Links(p)| + (if HasSource(p) then 1 else 0)
    ensures forall u :: u in r <==> u in Links(p) || (HasSource(p) && u == p.metadata.value.sourceURL.value)
  {
    if HasSource(p) then [p.metadata.value.sourceURL.value] + Links(p) else Links(p)
  }

  /** A page contributes its links in order, preceded by its own URL exactly when that URL is truthy. */
  lemma PageUrlsShape(p: PageData)
    ensures |PageUrls(p)| == |Links(p)| + (if HasSource(p) then 1 else 0)
    ensures PageUrls(p)[|PageUrls(p)| - |Links(p)|..] == Links(p)
    ensures HasSource(p) ==> PageUrls(p)[0] == p.metadata.value.sourceURL.value
    ensures !HasSource(p) ==> PageUrls(p) == Links(p)
  {
    if HasSource(p) {
      assert PageUrls(p)[1..] == Links(p);
    }
  }

  /** Total number of URLs the pages contribute. */
  function TotalUrls(pages: seq<PageData>): nat {
    if pages == [] then 0 else |PageUrls(pages[0])| + TotalUrls(pages[1..])
  }

  /** `crawlResult.data.flatMap(...)`. No URL is dropped or merged: the length is the sum of the parts. */
  function UrlsToScrape(pages: seq<PageData>): (r: seq<string>)
    ensures |r| == TotalUrls(pages)
  {
    if pages == [] then [] else PageUrls(pages[0]) + UrlsToScrape(pages[1..])
  }

  /** A URL is derived exactly when some page contributes it. */
  lemma {:induction false} UrlsToScrapeMembers(pages: seq<PageData>, u: string)
    ensures u in UrlsToScrape(pages) <==> exists i :: 0 <= i < |pages| && u in PageUrls(pages[i])
  {
    if pages != [] {
      var tail := pages[1..];
      UrlsToScrapeMembers(tail, u);
      if u in UrlsToScrape(pages) && u !in PageUrls(pages[0]) {
        var i :| 0 <= i < |tail| && u in PageUrls(tail[i]);
        assert tail[i] == pages[i + 1];
      }
      if exists i :: 0 <= i < |pages| && u in PageUrls(pages[i]) {
        var i :| 0 <= i < |pages| && u in PageUrls(pages[i]);
        if i > 0 {
          assert tail[i - 1] == pages[i];
        }
      }
    }
  }

  /** The flat map distributes over concatenation of the page list. */
  lemma {:induction false} UrlsToScrapeAppend(a: seq<PageData>, b: seq<PageData>)
    ensures UrlsToScrape(a + b) == UrlsToScrape(a) + UrlsToScrape(b)
  {
    if a == [] {
      assert a + b == b;
    } else {
      var ab := a + b;
      assert ab[0] == a[0] && ab[1..] == a[1..] + b;
      UrlsToScrapeAppend(a[1..], b);
      calc {
        UrlsToScrape(ab);
        PageUrls(a[0]) + UrlsToScrape(a[1..] + b);
        PageUrls(a[0]) + (UrlsToScrape(a[1..]) + UrlsToScrape(b));
        (PageUrls(a[0]) + UrlsToScrape(a[1..])) + UrlsToScrape(b);
      }
    }
  }

  /**
   * Order is kept: the URLs of page `i` sit, in their own order, right after
   * those of the pages before it.
   */
  lemma PageUrlsInPlace(pages: seq<PageData>, i: nat)
    requires i < |pages|
    ensures var off := |UrlsToScrape(pages[..i])|;
      off + |PageUrls(pages[i])| <= |UrlsToScrape(pages)| &&
      UrlsToScrape(pages)[off..off + |PageUrls(pages[i])|] == PageUrls(pages[i])
  {
    var pre, post := pages[..i], pages[i + 1..];
    assert pages == pre + ([pages[i]] + post);
    UrlsToScrapeAppend(pre, [pages[i]] + post);
    UrlsToScrapeAppend([pages[i]], post);
    assert UrlsToScrape([pages[i]]) == PageUrls(pages[i]) by {
      assert [pages[i]][1..] == [];
    }
    assert UrlsToScrape(pages) == UrlsToScrape(pre) + PageUrls(pages[i]) + UrlsToScrape(post);
  }
}
