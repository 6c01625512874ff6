/**
 * The decision `ETLExtractor.fetch_top_headlines` takes once the HTTP call
 * has finished: the request itself, its URL and parameters are replaced by
 * the outcome they produced.
 */
module Extractor {
  import opened Wrappers
  import opened Json

  /** An article as the API sends it: a JSON object from field name to value. */
  type Article = map<string, Value>

  /**
   * The decoded body of a successful response: the `status` member and the
   * `articles` member, each absent (or JSON null) or present.
   */
  datatype ResponseBody = ResponseBody(status: Option<Value>, articles: Option<seq<Article>>)

  /**
   * What the request produced: a `RequestException` (connection error,
   * timeout, 4xx/5xx status raised by `raise_for_status`, undecodable body),
   * or a body.
   */
  datatype HttpOutcome = RequestFailed | Received(body: ResponseBody)

  /** The API reports success with the string "ok" and nothing else. */
  const OkStatus: Value := Str("ok")

  /**
   * The articles are handed on only from a body whose status is "ok";
   * any other status, a missing status, or a failed request gives `None`.
   */
  function FetchTopHeadlines(http: HttpOutcome): (r: Option<seq<Article>>)
    ensures r.Some? <==> http.Received? && http.body.status == Some(OkStatus) && http.body.articles.Some?
    ensures r.Some? ==> r.value == http.body.articles.value
  {
    match http
    case RequestFailed => None
    case Received(body) =>
      if body.status == Some(OkStatus) then body.articles else None
  }
}
