/**
 * Validation of the request body by `inputSchema` (app/api/crawl/route.ts):
 * `url` must be a string that is a URL, `limit` an integer in [1, 100] that
 * defaults to 10 when absent. Other fields of the body are ignored.
 */
module CrawlInput {
  import opened Wrappers

  const DefaultLimit: int := 10
  const MinLimit: int := 1
  const MaxLimit: int := 100

  /** A field of the parsed JSON body, as far as validation distinguishes it. */
  datatype JsonValue = Absent | JString(s: string) | JNumber(n: real) | JOther

  /** The parsed body: an object with the two fields, or any other JSON value. */
  datatype Body = JsonObject(url: JsonValue, limit: JsonValue) | NotObject

  /** A validated request. */
  datatype CrawlRequest = CrawlRequest(url: string, limit: int)

  predicate IsInteger(n: real) {
    n == n.Floor as real
  }

  /** What `z.number().int().min(1).max(100).default(10)` makes of the `limit` field. */
  function ParseLimit(v: JsonValue): (r: Option<int>)
    ensures r.Some? ==> MinLimit <= r.value <= MaxLimit
    ensures v == Absent ==> r == Some(DefaultLimit)
    ensures r.Some? && v != Absent ==> v == JNumber(r.value as real)
  {
    match v
    case Absent => Some(DefaultLimit)
    case JNumber(n) =>
      if IsInteger(n) && MinLimit as real <= n <= MaxLimit as real then Some(n.Floor) else None
    case _ => None
  }

  /** `inputSchema.safeParse(body)`; `isValidUrl` stands for `z.string().url()`'s syntax check. */
  function Validate(body: Body, isValidUrl: string -> bool): (r: Option<CrawlRequest>)
    ensures r.Some? ==> body.JsonObject? && body.url == JString(r.value.url) && isValidUrl(r.value.url)
    ensures r.Some? ==> MinLimit <= r.value.limit <= MaxLimit
    ensures r.Some? && body.limit == Absent ==> r.value.limit == DefaultLimit
    ensures r.Some? && body.limit != Absent ==> body.limit == JNumber(r.value.limit as real)
  {
    match body
    case NotObject => None
    case JsonObject(url, limit) =>
      if !url.JString? || !isValidUrl(url.s) then None
      else
        match ParseLimit(limit)
        case Some(n) => Some(CrawlRequest(url.s, n))
        case None => None
  }

  /** The body a client sends for a request. */
  function Encode(req: CrawlRequest): Body {
    JsonObject(JString(req.url), JNumber(req.limit as real))
  }

  /** A request that meets the schema survives encoding and validation unchanged. */
  lemma ValidateEncode(req: CrawlRequest, isValidUrl: string -> bool)
    requires isValidUrl(req.url) && MinLimit <= req.limit <= MaxLimit
    ensures Validate(Encode(req), isValidUrl) == Some(req)
  {
    assert (req.limit as real).Floor == req.limit;
  }

  /** A body without `limit` gets the default. */
  lemma DefaultLimitApplied(url: string, isValidUrl: string -> bool)
    requires isValidUrl(url)
    ensures Validate(JsonObject(JString(url), Absent), isValidUrl) == Some(CrawlRequest(url, DefaultLimit))
  {
  }

  /**
   * The rejected bodies: not an object, no valid URL string, or a `limit`
   * that is present but not an integer in [1, 100].
   */
  lemma InvalidInputRejected(body: Body, isValidUrl: string -> bool)
    requires
      || !body.JsonObject?
      || !body.url.JString?
      || !isValidUrl(body.url.s)
      || (body.limit != Absent && !(body.limit.JNumber? && IsInteger(body.limit.n) && 1.0 <= body.limit.n <= 100.0))
    ensures Validate(body, isValidUrl) == None
  {
  }
}
