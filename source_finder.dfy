/**
 * `find_and_scrape_sources_optimized` of `scraping.py`: search with the
 * first two search phrases until enough URLs are found, de-duplicate them
 * keeping the first occurrence, scrape a capped number of them, and
 * return the best sources by relevance.
 *
 * `searchWeb` is `client.search_web` as `search_relevant_content` calls
 * it, `sentences` is what `sent_tokenize` splits the text into, and
 * `scrapeAll` is what the batch scrape returns for the URLs it is given.
 */
module SourceFinder {
  import opened Wrappers
  import opened Strings
  import opened Lists
  import opened Pages
  import Keywords
  import SearchPhrases
  import WebSearch

  /** A source row `{"url", "content", "title", "relevance"}`. */
  datatype Source = Source(url: string, content: string, title: string, relevance: real)

  /** The text talks about papers, studies or research. */
  predicate Academic(text: string) {
    Contains(Lower(text), "paper") || Contains(Lower(text), "study") || Contains(Lower(text), "research")
  }

  /** The query sent for a phrase. */
  function Query(phrase: string, academic: bool): string {
    if academic then phrase + " academic research paper" else phrase
  }

  function HasUrl(): SearchHit -> bool {
    (h: SearchHit) => h.url != ""
  }

  function UrlOf(): SearchHit -> string {
    (h: SearchHit) => h.url
  }

  /** The non-empty URLs of the eight relevant hits for one phrase. */
  function Found(phrase: string, text: string, searchWeb: (string, int) -> seq<SearchHit>): (r: seq<string>)
    ensures "" !in r
  {
    Map(Filter(WebSearch.Relevant(searchWeb(Query(phrase, Academic(text)), 16), 8), HasUrl()), UrlOf())
  }

  function FoundFor(text: string, searchWeb: (string, int) -> seq<SearchHit>): string -> seq<string> {
    (phrase: string) => Found(phrase, text, searchWeb)
  }

  /**
   * The URLs gathered over `phrases` after `acc`, stopping after the first
   * phrase that brings the total to `cap` or more.
   */
  function Gathered(phrases: seq<string>, found: string -> seq<string>, cap: int, acc: seq<string>): seq<string>
    decreases |phrases|
  {
    if phrases == [] then acc
    else
      var next := acc + found(phrases[0]);
      if |next| >= cap then next else Gathered(phrases[1..], found, cap, next)
  }

  /** At most `cap` URLs of the de-duplicated list (`urls[:min(cap, len(urls))]`). */
  function ToScrape<T>(urls: seq<T>, cap: int): seq<T> {
    Take(urls, if cap < |urls| then cap else |urls|)
  }

  /** A result the formatting loop keeps. */
  function Usable(): ScrapeResult -> bool {
    (r: ScrapeResult) => HasContentOver(r, 200)
  }

  function ToSource(text: string): ScrapeResult -> Source {
    (r: ScrapeResult) => Source(r.url, r.content, r.title, Keywords.Relevance(text, r.content))
  }

  function ByRelevance(): Source -> real {
    (s: Source) => s.relevance
  }

  /** The best `maxSources` usable results, most relevant first. */
  function Ranked(text: string, scraped: seq<ScrapeResult>, maxSources: int): seq<Source> {
    Take(SortDesc(Map(Filter(scraped, Usable()), ToSource(text)), ByRelevance()), maxSources)
  }

  /** The de-duplicated URLs found for the text. */
  function Candidates(text: string, sentences: seq<string>, maxSources: int,
                      searchWeb: (string, int) -> seq<SearchHit>): seq<string> {
    Dedup(Gathered(SearchPhrases.Phrases(text, sentences, 2), FoundFor(text, searchWeb), maxSources * 3, []))
  }

  /** The answer of `find_and_scrape_sources_optimized(text, max_sources)`. */
  function FindAndScrape(text: string, sentences: seq<string>, maxSources: int,
                         searchWeb: (string, int) -> seq<SearchHit>,
                         scrapeAll: seq<string> -> seq<ScrapeResult>): seq<Source> {
    var urls := Candidates(text, sentences, maxSources, searchWeb);
    if SearchPhrases.Phrases(text, sentences, 2) == [] || urls == [] then []
    else Ranked(text, scrapeAll(ToScrape(urls, maxSources * 3)), maxSources)
  }

  // ----- The steps, as the source performs them -----

  /** The search loop over the phrases, with its early break. */
  method GatherUrls(phrases: seq<string>, text: string, searchWeb: (string, int) -> seq<SearchHit>, cap: int)
    returns (all: seq<string>)
    ensures all == Gathered(phrases, FoundFor(text, searchWeb), cap, [])
  {
    all := [];
    var i := 0;
    while i < |phrases|
      invariant 0 <= i <= |phrases|
      invariant Gathered(phrases[i..], FoundFor(text, searchWeb), cap, all)
             == Gathered(phrases, FoundFor(text, searchWeb), cap, [])
    {
      var query := Query(phrases[i], Academic(text));
      var results := WebSearch.SearchRelevantContent(query, 8, searchWeb);
      var urls := Map(Filter(results, HasUrl()), UrlOf());
      assert urls == FoundFor(text, searchWeb)(phrases[i]);
      assert phrases[i..][1..] == phrases[i + 1..];
      all := all + urls;
      if |all| >= cap {
        return;
      }
      i := i + 1;
    }
  }

  /** The `seen_urls` loop: keep each URL the first time it appears. */
  method DedupUrls(all: seq<string>) returns (urls: seq<string>)
    ensures urls == Dedup(all)
  {
    urls := [];
    var seen: set<string> := {};
    var i := 0;
    while i < |all|
      invariant 0 <= i <= |all|
      invariant urls == Dedup(all[..i])
      invariant seen == set u | u in urls
    {
      var xs := all[..i + 1];
      assert xs[..|xs| - 1] == all[..i] && xs[|xs| - 1] == all[i];
      if all[i] !in seen {
        seen := seen + {all[i]};
        urls := urls + [all[i]];
      }
      i := i + 1;
    }
    assert all[..i] == all;
  }

  /** The formatting loop: one source row per result with more than 200 characters. */
  method FormatSources(text: string, results: seq<ScrapeResult>) returns (sources: seq<Source>)
    ensures sources == Map(Filter(results, Usable()), ToSource(text))
  {
    sources := [];
    var i := 0;
    while i < |results|
      invariant 0 <= i <= |results|
      invariant sources == Map(Filter(results[..i], Usable()), ToSource(text))
    {
      WebSearch.CollectStep(results, Usable(), ToSource(text), i);
      if HasContentOver(results[i], 200) {
        sources := sources + [ToSource(text)(results[i])];
      }
      i := i + 1;
    }
    assert results[..i] == results;
  }

  /** `find_and_scrape_sources_optimized(text, max_sources)`. */
  method FindAndScrapeSources(text: string, sentences: seq<string>, maxSources: int,
                              searchWeb: (string, int) -> seq<SearchHit>,
                              scrapeAll: seq<string> -> seq<ScrapeResult>) returns (r: seq<Source>)
    ensures r == FindAndScrape(text, sentences, maxSources, searchWeb, scrapeAll)
  {
    var phrases := SearchPhrases.ExtractSearchPhrases(text, sentences, 2);
    if phrases == [] {
      return [];
    }
    var all := GatherUrls(phrases, text, searchWeb, maxSources * 3);
    var urls := DedupUrls(all);
    if urls == [] {
      return [];
    }
    var maxUrls := if maxSources * 3 < |urls| then maxSources * 3 else |urls|;
    var results := scrapeAll(Take(urls, maxUrls));
    var sources := FormatSources(text, results);
    r := Take(SortDesc(sources, ByRelevance()), maxSources);
  }

  // ----- Properties -----

  /** There are always search phrases, so the early return for none is never taken. */
  lemma PhrasesNeverEmpty(text: string, sentences: seq<string>)
    ensures 1 <= |SearchPhrases.Phrases(text, sentences, 2)| <= 2
  {
    SearchPhrases.PhrasesBound(text, sentences, 2);
  }

  /**
   * The gathered URLs are those found for a prefix of the phrases: every
   * phrase before the last one searched left the total under `cap`, and
   * the search stops early only once the total reached `cap`.
   */
  lemma {:induction false} GatherStops(phrases: seq<string>, f: string -> seq<string>, cap: int, acc: seq<string>)
    returns (j: nat)
    ensures j <= |phrases| && (phrases != [] ==> j >= 1)
    ensures Gathered(phrases, f, cap, acc) == acc + FlatMap(phrases[..j], f)
    ensures forall m :: 1 <= m < j ==> |acc + FlatMap(phrases[..m], f)| < cap
    ensures j < |phrases| ==> |Gathered(phrases, f, cap, acc)| >= cap
    decreases |phrases|
  {
    if phrases == [] {
      assert phrases[..0] == [];
      return 0;
    }
    var p := phrases[0];
    var next := acc + f(p);
    assert phrases[..1] == [p];
    FlatMapOne(p, f);
    if |next| >= cap {
      return 1;
    }
    var j' := GatherStops(phrases[1..], f, cap, next);
    j := j' + 1;
    forall m | 0 <= m <= |phrases| - 1
      ensures acc + FlatMap(phrases[..m + 1], f) == next + FlatMap(phrases[1..][..m], f)
    {
      assert phrases[..m + 1] == [p] + phrases[1..][..m];
      FlatMapAppend([p], phrases[1..][..m], f);
    }
    assert phrases[1..][..0] == [];
    forall m | 1 <= m < j
      ensures |acc + FlatMap(phrases[..m], f)| < cap
    {
      assert acc + FlatMap(phrases[..m], f) == next + FlatMap(phrases[1..][..m - 1], f);
    }
  }

  /** The URLs to scrape are distinct, non-empty and no more than `3 * maxSources`, in first-found order. */
  lemma ScrapeListShape(text: string, sentences: seq<string>, maxSources: int,
                        searchWeb: (string, int) -> seq<SearchHit>)
    ensures var urls := Candidates(text, sentences, maxSources, searchWeb);
      var list := ToScrape(urls, maxSources * 3);
      Distinct(list) && list == urls[..|list|] && |list| <= |urls|
      && (maxSources >= 0 ==> |list| <= maxSources * 3) && "" !in list
  {
    var phrases := SearchPhrases.Phrases(text, sentences, 2);
    var f := FoundFor(text, searchWeb);
    var g := Gathered(phrases, f, maxSources * 3, []);
    assert forall p :: "" !in f(p) by {
      forall p ensures "" !in f(p) {
        assert f(p) == Found(p, text, searchWeb);
      }
    }
    GatheredNonEmpty(phrases, f, maxSources * 3, []);
    ToScrapeShape(g, "", maxSources * 3);
  }

  lemma ToScrapeShape<T>(all: seq<T>, absent: T, cap: int)
    requires absent !in all
    ensures var urls := Dedup(all); var list := ToScrape(urls, cap);
      Distinct(list) && list == urls[..|list|] && |list| <= |urls|
      && (cap >= 0 ==> |list| <= cap) && absent !in list
  {
    var urls := Dedup(all);
    var list := ToScrape(urls, cap);
    assert forall k :: 0 <= k < |list| ==> list[k] == urls[k];
  }

  /** Every URL searched for is non-empty. */
  lemma {:induction false} GatheredNonEmpty(phrases: seq<string>, f: string -> seq<string>, cap: int, acc: seq<string>)
    requires "" !in acc
    requires forall p :: "" !in f(p)
    ensures "" !in Gathered(phrases, f, cap, acc)
    decreases |phrases|
  {
    if phrases != [] {
      var next := acc + f(phrases[0]);
      GatheredNonEmpty(phrases[1..], f, cap, next);
    }
  }

  /** At most `maxSources` sources, most relevant first. */
  lemma RankedOrder(text: string, scraped: seq<ScrapeResult>, maxSources: int)
    ensures maxSources >= 0 ==> |Ranked(text, scraped, maxSources)| <= maxSources
    ensures SortedDesc(Ranked(text, scraped, maxSources), ByRelevance())
  {
    var rows := Map(Filter(scraped, Usable()), ToSource(text));
    SortDescSorted(rows, ByRelevance());
    TakeSorted(SortDesc(rows, ByRelevance()), ByRelevance(), maxSources);
  }

  /**
   * Each source is a scraped result with more than 200 characters of
   * content, carrying its URL, content and title and its relevance to the
   * text, which lies in [0, 100].
   */
  lemma RankedRows(text: string, scraped: seq<ScrapeResult>, maxSources: int, k: nat)
    requires k < |Ranked(text, scraped, maxSources)|
    ensures var s := Ranked(text, scraped, maxSources)[k];
      exists r :: r in scraped && |r.content| > 200 && s == Source(r.url, r.content, r.title, Keywords.Relevance(text, r.content))
    ensures 0.0 <= Ranked(text, scraped, maxSources)[k].relevance <= 100.0
  {
    var usable := Filter(scraped, Usable());
    var rows := Map(usable, ToSource(text));
    TopOfSortedIn(rows, ByRelevance(), maxSources, k);
    var s := Ranked(text, scraped, maxSources)[k];
    var i :| 0 <= i < |rows| && rows[i] == s;
    FilterKeeps(scraped, Usable(), usable[i]);
  }

  /** Nothing scraped, or nothing long enough: no sources. */
  lemma RankedNothingUsable(text: string, scraped: seq<ScrapeResult>, maxSources: int)
    requires forall k :: 0 <= k < |scraped| ==> |scraped[k].content| <= 200
    ensures Ranked(text, scraped, maxSources) == []
  {
    FilterNone(scraped, Usable());
  }
}
