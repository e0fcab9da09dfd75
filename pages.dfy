/** The dictionaries the scrapers and the search functions return. */
module Pages {
  import opened Wrappers

  /** A scrape result `{"url", "title", "content", "error"}`; a missing key reads as "". */
  datatype ScrapeResult = ScrapeResult(url: string, title: string, content: string, error: string)

  /** The error dictionary `{"url": url, "error": e, "content": ""}`. */
  function Failure(url: string, error: string): (r: ScrapeResult)
    ensures r.url == url && r.content == "" && r.error == error
  {
    ScrapeResult(url, "", "", error)
  }

  /** `result and result.get("content") and len(result.get("content", "")) > n`. */
  predicate HasContentOver(r: ScrapeResult, n: nat) {
    |r.content| > n
  }

  /** A search hit `{"url", "title", "snippet"}` with the optional `content_type` key. */
  datatype SearchHit = SearchHit(url: string, title: string, snippet: string, contentType: Option<string>)
}
