/**
 * The search side of `scraping.py`: the filtering and priority ordering of
 * `search_relevant_content`, the engine fallback of
 * `ZyteClient._fallback_search`, and the result rows and redirect rewrite
 * of `_direct_ddg_search`.
 *
 * `client.search_web`, the Google and Bing scrapers, the Playwright
 * crawler and the page fetches are oracle parameters; what BeautifulSoup
 * selects from a DuckDuckGo page is a list of `DdgResult` values.
 */
module WebSearch {
  import opened Wrappers
  import opened Strings
  import opened Lists
  import opened Pages
  import Urls
  import Quoting

  // ----- URL tests of search_relevant_content -----

  predicate EndsWith(s: string, t: string) {
    |t| <= |s| && s[|s| - |t|..] == t
  }

  /** `t$` matches at the end of `s`: Python's `$` also matches before a final newline. */
  predicate EndMatch(s: string, t: string) {
    EndsWith(s, t) || EndsWith(s, t + "\n")
  }

  const PageWords: seq<string> := ["login", "signup", "register", "cart", "checkout", "account", "profile", "contact", "about"]
  const DocExtensions: seq<string> := ["pdf", "doc", "docx", "ppt", "pptx"]
  const SocialSites: seq<string> := ["facebook.com", "twitter.com", "instagram.com", "tiktok.com", "youtube.com"]

  /** `re.search(r'/(login|…|about)/?$', url, re.I)`. */
  predicate NonContentPage(url: string) {
    exists i :: 0 <= i < |PageWords| &&
      (EndMatch(Lower(url), "/" + PageWords[i]) || EndMatch(Lower(url), "/" + PageWords[i] + "/"))
  }

  /** `re.search(r'\.(pdf|doc|docx|ppt|pptx)$', url, re.I)`. */
  predicate Document(url: string) {
    exists i :: 0 <= i < |DocExtensions| && EndMatch(Lower(url), "." + DocExtensions[i])
  }

  /** `urlparse(url).netloc`. */
  function Domain(url: string): string {
    Urls.Netloc(url)
  }

  /** A social-media site's name occurs in the domain (case-sensitively, as written). */
  predicate SocialMedia(url: string) {
    AnyIn(SocialSites, Domain(url))
  }

  /** The hits the filtering loop appends. */
  function Keep(): SearchHit -> bool {
    (h: SearchHit) => !NonContentPage(h.url) && !Document(h.url) && !SocialMedia(h.url)
  }

  /** The sort key: academic or `.edu` first, then encyclopedias, then the rest. */
  function Priority(): SearchHit -> real {
    (h: SearchHit) =>
      if h.contentType == Some("academic") || Contains(Domain(h.url), ".edu") then 2.0
      else if h.contentType == Some("encyclopedia") then 1.0
      else 0.0
  }

  /**
   * How many items a loop that appends and then breaks once it holds
   * `max` items collects at most: one even when `max` is not positive.
   */
  function AtLeastOne(max: int): (n: int)
    ensures n >= 1 && (max >= 1 ==> n == max)
  {
    if max < 1 then 1 else max
  }

  /** The answer of `search_relevant_content` for the hits `search_web` returned. */
  function Relevant(hits: seq<SearchHit>, max: int): seq<SearchHit> {
    Take(SortDesc(Take(Filter(hits, Keep()), AtLeastOne(max)), Priority()), max)
  }

  // ----- Collecting with an early break -----

  function Id<T>(): T -> T {
    (x: T) => x
  }

  lemma {:induction false} MapId<T>(xs: seq<T>)
    ensures Map(xs, Id()) == xs
  {
    assert forall k :: 0 <= k < |xs| ==> Map(xs, Id())[k] == xs[k];
  }

  /** Once the loop has collected `cap` items from the first `i`, the cut of its whole output is what it holds. */
  lemma {:induction false} CollectedCut<A, B>(xs: seq<A>, p: A -> bool, f: A -> B, i: nat, cap: int)
    requires i <= |xs| && |Filter(xs[..i], p)| == cap
    ensures Take(Map(Filter(xs, p), f), cap) == Map(Filter(xs[..i], p), f)
  {
    assert xs == xs[..i] + xs[i..];
    FilterAppend(xs[..i], xs[i..], p);
    var pre := Filter(xs[..i], p);
    var all := Filter(xs, p);
    assert all[..|pre|] == pre;
    assert forall k :: 0 <= k < |pre| ==> Map(all, f)[k] == f(pre[k]);
  }

  /** A loop that ran through all of `xs` holds everything that passes. */
  lemma CollectedAll<A, B>(xs: seq<A>, p: A -> bool, f: A -> B, cap: int)
    requires |Filter(xs[..|xs|], p)| < cap
    ensures Take(Map(Filter(xs, p), f), cap) == Map(Filter(xs[..|xs|], p), f)
  {
    assert xs[..|xs|] == xs;
  }

  /** One more step of the loop. */
  lemma CollectStep<A, B>(xs: seq<A>, p: A -> bool, f: A -> B, i: nat)
    requires i < |xs|
    ensures Map(Filter(xs[..i + 1], p), f)
         == Map(Filter(xs[..i], p), f) + (if p(xs[i]) then [f(xs[i])] else [])
  {
    assert xs[..i + 1] == xs[..i] + [xs[i]];
    FilterSnoc(xs[..i], xs[i], p);
    if p(xs[i]) {
      MapSnoc(Filter(xs[..i], p), xs[i], f);
    }
  }

  /**
   * `for x in xs: if p(x): r.append(f(x)); if len(r) >= max: break`:
   * the images of the first items that pass, up to the cut.
   */
  method CollectUpTo<A, B>(xs: seq<A>, p: A -> bool, f: A -> B, max: int) returns (r: seq<B>)
    ensures r == Take(Map(Filter(xs, p), f), AtLeastOne(max))
  {
    r := [];
    var i := 0;
    while i < |xs|
      invariant 0 <= i <= |xs|
      invariant r == Map(Filter(xs[..i], p), f)
      invariant |r| < AtLeastOne(max)
    {
      CollectStep(xs, p, f, i);
      if p(xs[i]) {
        r := r + [f(xs[i])];
        if |r| >= AtLeastOne(max) {
          CollectedCut(xs, p, f, i + 1, AtLeastOne(max));
          return;
        }
      }
      i := i + 1;
    }
    CollectedAll(xs, p, f, AtLeastOne(max));
  }

  /** `search_relevant_content(query, max_results)`, with `client.search_web` as `searchWeb`. */
  method SearchRelevantContent(query: string, maxResults: int,
                               searchWeb: (string, int) -> seq<SearchHit>) returns (r: seq<SearchHit>)
    ensures r == Relevant(searchWeb(query, maxResults * 2), maxResults)
  {
    var results := searchWeb(query, maxResults * 2);
    var filtered := CollectUpTo(results, Keep(), Id(), maxResults);
    MapId(Filter(results, Keep()));
    r := Take(SortDesc(filtered, Priority()), maxResults);
  }

  // ----- Properties of search_relevant_content -----

  /** Nothing kept is a non-content page, a document or a social-media page, and all come from the hits. */
  lemma RelevantKept(hits: seq<SearchHit>, max: int, k: nat)
    requires k < |Relevant(hits, max)|
    ensures Relevant(hits, max)[k] in hits
    ensures var h := Relevant(hits, max)[k]; !NonContentPage(h.url) && !Document(h.url) && !SocialMedia(h.url)
  {
    var kept := Filter(hits, Keep());
    var cut := Take(kept, AtLeastOne(max));
    TopOfSortedIn(cut, Priority(), max, k);
    var h := Relevant(hits, max)[k];
    assert h in kept;
    FilterKeeps(hits, Keep(), h);
  }

  /** At most `max_results` hits, and none at all when it is not positive. */
  lemma RelevantBound(hits: seq<SearchHit>, max: int)
    ensures max >= 0 ==> |Relevant(hits, max)| <= max
    ensures max <= 0 ==> Relevant(hits, max) == []
  {
  }

  /** Priority never increases along the answer. */
  lemma RelevantSorted(hits: seq<SearchHit>, max: int)
    ensures SortedDesc(Relevant(hits, max), Priority())
  {
    var cut := Take(Filter(hits, Keep()), AtLeastOne(max));
    SortDescSorted(cut, Priority());
    TakeSorted(SortDesc(cut, Priority()), Priority(), max);
  }

  /** The answer holds exactly the first `max_results` hits that pass the filters. */
  lemma RelevantFirstEligible(hits: seq<SearchHit>, max: int)
    requires max >= 1
    ensures multiset(Relevant(hits, max)) == multiset(Take(Filter(hits, Keep()), max))
  {
  }

  /**
   * Hits of equal priority keep the order `search_web` gave them (the sort
   * is stable), when no more than `max_results` hits pass the filters.
   */
  lemma RelevantStable(hits: seq<SearchHit>, max: int, prio: real)
    requires max >= 1 && |Filter(hits, Keep())| <= max
    ensures Filter(Relevant(hits, max), SameKey(Priority(), prio))
         == Filter(Filter(hits, Keep()), SameKey(Priority(), prio))
  {
    var kept := Filter(hits, Keep());
    assert Take(kept, AtLeastOne(max)) == kept;
    SortDescStable(kept, Priority(), prio);
  }

  // ----- _direct_ddg_search -----

  /** A `.result__a` element: its `href` and its text. */
  datatype LinkElem = LinkElem(href: string, text: string)

  /** A `.result` element: its link element and its snippet's text, when present. */
  datatype DdgResult = DdgResult(link: Option<LinkElem>, snippet: Option<string>)

  /**
   * The redirect rewrite: a link containing `/redirect/` becomes the text
   * between its first `uddg=` and the next one (`link.split('uddg=')[1]`).
   */
  function Redirected(link: string): string {
    if Contains(link, "/redirect/") then
      var parts := SplitOn(link, "uddg=");
      if |parts| > 1 then parts[1] else link
    else link
  }

  function HasLink(): DdgResult -> bool {
    (d: DdgResult) => d.link.Some?
  }

  /** The row of a result with a link; the placeholder for the others is never collected. */
  function DdgRow(): DdgResult -> SearchHit {
    (d: DdgResult) =>
      match d.link
      case Some(l) => SearchHit(Redirected(l.href), Strip(l.text),
                                if d.snippet.Some? then Strip(d.snippet.value) else "", None)
      case None => SearchHit("", "", "", None)
  }

  /** The answer of `_direct_ddg_search`; `None` for a failed fetch, which yields `[]`. */
  function DdgHits(page: Option<seq<DdgResult>>, max: int): seq<SearchHit> {
    match page
    case None => []
    case Some(results) => Take(Map(Filter(results, HasLink()), DdgRow()), AtLeastOne(max))
  }

  /** `f"https://html.duckduckgo.com/html/?q={quote_plus(query)}"`. */
  function DdgUrl(query: string): string {
    "https://html.duckduckgo.com/html/?q=" + Quoting.QuotePlus(query)
  }

  /** `_direct_ddg_search(query, max_results)` over the fetch of its search page. */
  method DirectDdgSearch(query: string, maxResults: int, fetch: string -> Option<seq<DdgResult>>)
    returns (r: seq<SearchHit>)
    ensures r == DdgHits(fetch(DdgUrl(query)), maxResults)
  {
    var page := fetch(DdgUrl(query));
    if page.None? {
      return [];
    }
    r := CollectUpTo(page.value, HasLink(), DdgRow(), maxResults);
  }

  /** A link without `/redirect/`, or without `uddg=`, is kept as it is. */
  lemma RedirectUnchanged(link: string)
    requires !Contains(link, "/redirect/") || !Contains(link, "uddg=")
    ensures Redirected(link) == link
  {
  }

  /**
   * A redirect link is cut to what follows its first `uddg=`, up to a
   * second `uddg=` if there is one; the result holds no `uddg=`.
   */
  lemma RedirectTarget(link: string)
    requires Contains(link, "/redirect/") && Contains(link, "uddg=")
    ensures var after := link[Find(link, "uddg=") + 5..];
      Redirected(link) == (if Find(after, "uddg=") < 0 then after else after[..Find(after, "uddg=")])
    ensures !Contains(Redirected(link), "uddg=")
  {
    var i := Find(link, "uddg=");
    var after := link[i + 5..];
    assert SplitOn(link, "uddg=") == [link[..i]] + SplitOn(after, "uddg=");
    assert SplitOn(link, "uddg=")[1] == SplitOn(after, "uddg=")[0];
  }

  /**
   * The rows are those of the results with a link, in page order, and no
   * more than `max_results` of them, except that the loop's check after
   * the append lets one through when `max_results` is not positive.
   */
  lemma DdgRows(page: seq<DdgResult>, max: int)
    ensures |DdgHits(Some(page), max)| <= AtLeastOne(max)
    ensures forall k :: 0 <= k < |DdgHits(Some(page), max)| ==>
      DdgHits(Some(page), max)[k] == DdgRow()(Filter(page, HasLink())[k])
    ensures |Filter(page, HasLink())| >= AtLeastOne(max) ==> |DdgHits(Some(page), max)| == AtLeastOne(max)
  {
  }

  /** The search page's query decodes back to the query. */
  lemma DdgUrlCarriesQuery(query: string)
    ensures var url := DdgUrl(query); var n := |"https://html.duckduckgo.com/html/?q="|;
      n <= |url| && Quoting.UnquotePlus(url[n..]) == query
  {
    var pre := "https://html.duckduckgo.com/html/?q=";
    assert DdgUrl(query)[|pre|..] == Quoting.QuotePlus(query);
    Quoting.QuotePlusRoundTrip(query);
  }

  // ----- _fallback_search -----

  /** A page the crawler returns: its URL, title and HTML. */
  datatype CrawlHit = CrawlHit(url: string, title: string, html: string)

  /** A search method: what it returns, or raises, for a query and a result count. */
  type Engine = (string, int) -> Attempt<seq<SearchHit>>

  /** The row of a crawled page: its first 150 characters of text and `...`. */
  function CrawlRow(textOf: string -> string): CrawlHit -> SearchHit {
    (c: CrawlHit) => SearchHit(c.url, c.title, Take(textOf(c.html), 150) + "...", None)
  }

  /** The last-resort answer. */
  function WikipediaHit(query: string): SearchHit {
    SearchHit("https://en.wikipedia.org/wiki/" + Quoting.QuotePlus(query), "Wikipedia - " + query, "", None)
  }

  /** An engine that returned a non-empty list. */
  function Answers(query: string, max: int): Engine -> bool {
    (e: Engine) => e(query, max).Returned? && e(query, max).value != []
  }

  /**
   * `_fallback_search(query, max_results)`. `crawl` is `None` when
   * Playwright is not installed, else what the crawler returned or raised;
   * `textOf` is BeautifulSoup's `get_text()`.
   */
  function Fallback(query: string, max: int, crawl: Option<Attempt<seq<CrawlHit>>>,
                    textOf: string -> string, engines: seq<Engine>): (r: seq<SearchHit>)
    ensures r != []
  {
    if crawl.Some? && crawl.value.Returned? && crawl.value.value != [] then
      Map(crawl.value.value, CrawlRow(textOf))
    else
      match FirstWhere(engines, Answers(query, max))
      case Some(k) => engines[k](query, max).value
      case None => [WikipediaHit(query)]
  }

  /** The DuckDuckGo search as an engine: it never raises. */
  function DdgEngine(fetch: string -> Option<seq<DdgResult>>): Engine {
    (q: string, m: int) => Returned(DdgHits(fetch(DdgUrl(q)), m))
  }

  /** `_fallback_search` with the Google, Bing and DuckDuckGo methods, tried in that order. */
  method FallbackSearch(query: string, maxResults: int, crawl: Option<Attempt<seq<CrawlHit>>>,
                        textOf: string -> string, google: Engine, bing: Engine,
                        ddgFetch: string -> Option<seq<DdgResult>>) returns (r: seq<SearchHit>)
    ensures r == Fallback(query, maxResults, crawl, textOf, [google, bing, DdgEngine(ddgFetch)])
  {
    if crawl.Some? && crawl.value.Returned? && crawl.value.value != [] {
      return Map(crawl.value.value, CrawlRow(textOf));
    }
    var engines := [google, bing, DdgEngine(ddgFetch)];
    var i := 0;
    while i < |engines|
      invariant 0 <= i <= |engines|
      invariant forall k :: 0 <= k < i ==> !Answers(query, maxResults)(engines[k])
    {
      var results := engines[i](query, maxResults);
      if results.Returned? && results.value != [] {
        FirstWhereIs(engines, Answers(query, maxResults), i);
        return results.value;
      }
      i := i + 1;
    }
    return [WikipediaHit(query)];
  }

  // ----- Properties of _fallback_search -----

  /**
   * Without crawler results, the answer of the first engine that returned
   * a non-empty list, every earlier one having raised or found nothing.
   */
  lemma FallbackFirstEngine(query: string, max: int, crawl: Option<Attempt<seq<CrawlHit>>>,
                            textOf: string -> string, engines: seq<Engine>, k: nat)
    requires !(crawl.Some? && crawl.value.Returned? && crawl.value.value != [])
    requires k < |engines| && engines[k](query, max).Returned? && engines[k](query, max).value != []
    requires forall j :: 0 <= j < k ==> engines[j](query, max).Raised? || engines[j](query, max).value == []
    ensures Fallback(query, max, crawl, textOf, engines) == engines[k](query, max).value
  {
    FirstWhereIs(engines, Answers(query, max), k);
  }

  /** Crawler results come first, one row per crawled page, in order. */
  lemma FallbackCrawled(query: string, max: int, crawl: seq<CrawlHit>, textOf: string -> string,
                        engines: seq<Engine>)
    requires crawl != []
    ensures var r := Fallback(query, max, Some(Returned(crawl)), textOf, engines);
      |r| == |crawl| && forall k :: 0 <= k < |crawl| ==> r[k].url == crawl[k].url && r[k].title == crawl[k].title
  {
  }

  /**
   * When nothing found anything, exactly the Wikipedia page of the query:
   * its path segment holds only URL-safe characters and decodes to the query.
   */
  lemma FallbackWikipedia(query: string, max: int, crawl: Option<Attempt<seq<CrawlHit>>>,
                          textOf: string -> string, engines: seq<Engine>)
    requires !(crawl.Some? && crawl.value.Returned? && crawl.value.value != [])
    requires forall j :: 0 <= j < |engines| ==> engines[j](query, max).Raised? || engines[j](query, max).value == []
    ensures Fallback(query, max, crawl, textOf, engines) == [WikipediaHit(query)]
    ensures var seg := Quoting.QuotePlus(query);
      WikipediaHit(query).url == "https://en.wikipedia.org/wiki/" + seg
      && Quoting.UnquotePlus(seg) == query
      && forall k :: 0 <= k < |seg| ==> Quoting.QuotedChar(seg[k])
  {
    assert FirstWhere(engines, Answers(query, max)).None?;
    Quoting.QuotePlusRoundTrip(query);
    Quoting.QuotePlusChars(query);
  }

  /** DuckDuckGo is asked only when Google and Bing found nothing, and its rows are then the answer. */
  lemma FallbackToDdg(query: string, max: int, textOf: string -> string, google: Engine, bing: Engine,
                      ddgFetch: string -> Option<seq<DdgResult>>)
    requires google(query, max).Raised? || google(query, max).value == []
    requires bing(query, max).Raised? || bing(query, max).value == []
    requires DdgHits(ddgFetch(DdgUrl(query)), max) != []
    ensures Fallback(query, max, None, textOf, [google, bing, DdgEngine(ddgFetch)])
         == DdgHits(ddgFetch(DdgUrl(query)), max)
  {
    var engines := [google, bing, DdgEngine(ddgFetch)];
    FallbackFirstEngine(query, max, None, textOf, engines, 2);
  }
}
