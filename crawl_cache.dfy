/**
 * The `crawled_results` table used as a cache by app/api/crawl/route.ts: rows
 * (url, content, expires_at), appended on every successful crawl and filtered
 * by url and expiry when read. Nothing is updated in place or purged.
 */
module CrawlCache {
  import opened CrawlTypes

  /** Time a cached result stays valid, in seconds. */
  const SevenDays: int := 7 * 24 * 60 * 60

  const SecondsPerDay: int := 24 * 60 * 60

  /** A cache row; `expiresAt` is in seconds, stored as `toISOString()` text (`YYYY-MM-DDTHH:MM:SS.sssZ`, UTC). */
  datatype Row = Row(url: string, content: seq<ScrapedPage>, expiresAt: int)

  /** The UTC calendar day of a time, counted in days from the epoch. */
  function Day(t: int): int {
    t / SecondsPerDay
  }

  /**
   * `url = ? AND expires_at > CURRENT_TIMESTAMP`. Both sides are text, so
   * SQLite compares them byte by byte: `CURRENT_TIMESTAMP` is
   * `YYYY-MM-DD HH:MM:SS`, and on an equal date the `T` of the stored value
   * sorts after the space. A row is therefore live up to the end of the UTC
   * day on which it expires, not up to the instant `expiresAt`.
   */
  predicate Matches(row: Row, url: string, now: int): (m: bool)
    ensures m ==> row.url == url
    ensures row.url == url && now < row.expiresAt ==> m
    ensures (Day(row.expiresAt) + 1) * SecondsPerDay <= now ==> !m
  {
    row.url == url && Day(row.expiresAt) >= Day(now)
  }

  /** Calendar days never run backwards. */
  lemma DayMonotone(t: int, u: int)
    requires t <= u
    ensures Day(t) <= Day(u)
  {
  }

  /** A row is still served after its expiry instant, until that UTC day ends. */
  lemma LiveThroughExpiryDay(row: Row, url: string, now: int)
    requires row.url == url && row.expiresAt <= now
    requires now < (Day(row.expiresAt) + 1) * SecondsPerDay
    ensures Matches(row, url, now)
  {
  }

  /** The `content` column of the rows the `SELECT` returns, in table order. */
  function Matching(rows: seq<Row>, url: string, now: int): (r: seq<seq<ScrapedPage>>)
    ensures |r| <= |rows|
    ensures |r| == 0 <==> forall i :: 0 <= i < |rows| ==> !Matches(rows[i], url, now)
  {
    if rows == [] then []
    else
      var rest := Matching(rows[1..], url, now);
      assert forall i :: 1 <= i < |rows| ==> rows[i] == rows[1..][i - 1];
      if Matches(rows[0], url, now) then [rows[0].content] + rest else rest
  }

  /** Every content the lookup returns is that of a live row for the url. */
  lemma {:induction false} MatchingSound(rows: seq<Row>, url: string, now: int, c: seq<ScrapedPage>)
    requires c in Matching(rows, url, now)
    ensures exists i :: 0 <= i < |rows| && Matches(rows[i], url, now) && rows[i].content == c
  {
    if !(Matches(rows[0], url, now) && c == rows[0].content) {
      MatchingSound(rows[1..], url, now, c);
      var i :| 0 <= i < |rows[1..]| && Matches(rows[1..][i], url, now) && rows[1..][i].content == c;
      assert rows[i + 1] == rows[1..][i];
    }
  }

  /** `rows[0]` of the query is the content of the first live row for that url. */
  lemma {:induction false} FirstMatchServed(rows: seq<Row>, url: string, now: int, i: nat)
    requires i < |rows| && Matches(rows[i], url, now)
    requires forall j :: 0 <= j < i ==> !Matches(rows[j], url, now)
    ensures |Matching(rows, url, now)| > 0 && Matching(rows, url, now)[0] == rows[i].content
  {
    if i > 0 {
      FirstMatchServed(rows[1..], url, now, i - 1);
    }
  }

  /** Appending a row adds its content at the end of the result exactly when it matches. */
  lemma {:induction false} MatchingAppend(rows: seq<Row>, row: Row, url: string, now: int)
    ensures Matching(rows + [row], url, now) ==
      Matching(rows, url, now) + (if Matches(row, url, now) then [row.content] else [])
  {
    if rows == [] {
      assert [row][1..] == [];
    } else {
      assert (rows + [row])[1..] == rows[1..] + [row];
      MatchingAppend(rows[1..], row, url, now);
    }
  }

  /** A url with no live row still has none later: expired rows never come back. */
  lemma {:induction false} ExpiredStaysExpired(rows: seq<Row>, url: string, now: int, later: int)
    requires Matching(rows, url, now) == [] && now <= later
    ensures Matching(rows, url, later) == []
  {
    if rows != [] {
      DayMonotone(now, later);
      ExpiredStaysExpired(rows[1..], url, now, later);
    }
  }

  /**
   * Round trip: content inserted after a miss at `now` is exactly what a lookup
   * of the same url returns, from then until the end of the UTC day seven
   * days later.
   */
  lemma InsertedRowServed(rows: seq<Row>, url: string, content: seq<ScrapedPage>, now: int, later: int)
    requires Matching(rows, url, now) == []
    requires now <= later && Day(later) <= Day(now + SevenDays)
    ensures Matching(rows + [Row(url, content, now + SevenDays)], url, later) == [content]
  {
    ExpiredStaysExpired(rows, url, now, later);
    MatchingAppend(rows, Row(url, content, now + SevenDays), url, later);
  }

  /** From the UTC day after its expiry day on, an inserted row no longer changes any lookup. */
  lemma InsertedRowExpires(rows: seq<Row>, url: string, content: seq<ScrapedPage>, now: int, later: int)
    requires Day(later) > Day(now + SevenDays)
    ensures Matching(rows + [Row(url, content, now + SevenDays)], url, later) == Matching(rows, url, later)
  {
    MatchingAppend(rows, Row(url, content, now + SevenDays), url, later);
  }

  /** A row for another url (even one that differs only by a trailing slash) changes no lookup. */
  lemma OtherUrlUnaffected(rows: seq<Row>, row: Row, url: string, now: int)
    requires row.url != url
    ensures Matching(rows + [row], url, now) == Matching(rows, url, now)
  {
    MatchingAppend(rows, row, url, now);
  }

  /** The table, to which the handler appends. */
  class Database {
    var rows: seq<Row>

    constructor ()
      ensures rows == []
    {
      rows := [];
    }

    /** `SELECT content FROM crawled_results WHERE url = ? AND expires_at > CURRENT_TIMESTAMP`. */
    method Select(url: string, now: int) returns (contents: seq<seq<ScrapedPage>>)
      ensures contents == Matching(rows, url, now)
    {
      contents := Matching(rows, url, now);
    }

    /** `INSERT INTO crawled_results (url, content, expires_at) VALUES (?, ?, ?)`. */
    method Insert(row: Row)
      modifies this
      ensures rows == old(rows) + [row]
    {
      rows := rows + [row];
    }
  }
}
