/**
 * The two URL classifiers of `ZyteServiceRouter`: first-match-wins checks
 * of substring tables against the lower-cased host and path.
 */
module SiteClassification {
  import opened Strings
  import Urls

  /** The lower-cased `netloc` and `path` of a URL. */
  function Domain(url: string): string {
    Lower(Urls.UrlParse(url).netloc)
  }

  function Path(url: string): string {
    Lower(Urls.UrlParse(url).path)
  }

  /** A table entry matches the domain or the path. */
  predicate AnyInEither(pats: seq<string>, domain: string, path: string) {
    exists i :: 0 <= i < |pats| && (Contains(domain, pats[i]) || Contains(path, pats[i]))
  }

  lemma {:induction false} AnyInEitherExtended(pats: seq<string>, d: string, p: string, a: string, b: string, c: string, e: string)
    requires AnyInEither(pats, d, p)
    ensures AnyInEither(pats, a + d + b, c + p + e)
  {
    var i :| 0 <= i < |pats| && (Contains(d, pats[i]) || Contains(p, pats[i]));
    if Contains(d, pats[i]) {
      PrefixContains(d, pats[i], b);
      PrefixContains(d + b, pats[i], a);
      assert a + (d + b) == a + d + b;
    } else {
      PrefixContains(p, pats[i], e);
      PrefixContains(p + e, pats[i], c);
      assert c + (p + e) == c + p + e;
    }
  }

  // ----- classify_site_complexity -----

  datatype Service = ScrapyCloud | ZyteApi | DirectHttp

  const AcademicPatterns: seq<string> := [
    "sciencedirect", "springer", "wiley", "pubmed", "ncbi", "ieee", "jstor",
    "elsevier", "nature", "academia.edu", "researchgate", "frontiers", "oxford",
    "tandfonline", "sage", "nih.gov", "acm.org"]

  const NewsPatterns: seq<string> := [
    "news", "blog", "times", "post", ".gov", "cnn", "bbc", "guardian", "nytimes",
    "washingtonpost", "medium.com", "reuters", "bloomberg"]

  const JsPatterns: seq<string> := ["angular", "react", "vue", "spa", "dashboard", "app."]

  /** The decision on the lower-cased domain and path. */
  function Complexity(domain: string, path: string): (s: Service)
    ensures s == ScrapyCloud <==> AnyIn(AcademicPatterns, domain)
    ensures s == DirectHttp <==>
      !AnyIn(AcademicPatterns, domain) && !AnyIn(NewsPatterns, domain) && !AnyInEither(JsPatterns, domain, path)
  {
    if AnyIn(AcademicPatterns, domain) then ScrapyCloud
    else if AnyIn(NewsPatterns, domain) then ZyteApi
    else if AnyInEither(JsPatterns, domain, path) then ZyteApi
    else DirectHttp
  }

  /** `classify_site_complexity(url)`. */
  function ClassifySiteComplexity(url: string): (s: Service)
  {
    Complexity(Domain(url), Path(url))
  }

  /** The path can change the decision only between Zyte API and direct HTTP. */
  lemma {:induction false} PathOnlyDecidesJs(domain: string, p1: string, p2: string)
    requires Complexity(domain, p1) != Complexity(domain, p2)
    ensures !AnyIn(AcademicPatterns, domain) && !AnyIn(NewsPatterns, domain)
    ensures {Complexity(domain, p1), Complexity(domain, p2)} == {ZyteApi, DirectHttp}
  {
  }

  function ServiceRank(s: Service): nat {
    match s
    case ScrapyCloud => 2
    case ZyteApi => 1
    case DirectHttp => 0
  }

  /** Longer hosts and paths containing the shorter ones never pick a cheaper service. */
  lemma {:induction false} ComplexityExtension(d: string, p: string, a: string, b: string, c: string, e: string)
    ensures ServiceRank(Complexity(a + d + b, c + p + e)) >= ServiceRank(Complexity(d, p))
  {
    if AnyIn(AcademicPatterns, d) {
      AnyInExtended(AcademicPatterns, d, a, b);
    } else if AnyIn(NewsPatterns, d) {
      AnyInExtended(NewsPatterns, d, a, b);
    } else if AnyInEither(JsPatterns, d, p) {
      AnyInEitherExtended(JsPatterns, d, p, a, b, c, e);
    }
  }

  /** A publisher host wins over a news word in the same host. */
  lemma AcademicBeforeNews()
    ensures Complexity("news.springer.com", "/") == ScrapyCloud
  {
    var d := "news.springer.com";
    assert d[5..13] == "springer";
    OccursContains(d, AcademicPatterns[1], 5);
  }

  /** A news host is not fetched directly. */
  lemma NewsHostUsesZyteApi()
    ensures Complexity("www.nytimes.com", "/") != DirectHttp
  {
    var d := "www.nytimes.com";
    assert d[6..11] == "times";
    OccursContains(d, NewsPatterns[2], 6);
  }

  // ----- classify_website -----

  datatype SiteKind = Scientific | News | Complex | Standard

  const ScientificTlds: seq<string> := [".edu", ".ac.uk", ".ac.jp", ".ac.", ".research."]

  const ScientificPatterns: seq<string> := [
    "science", "research", "journal", "academic", "scholar", "university",
    "institute", "lab", "proceedings", "publications", "springer", "wiley",
    "elsevier", "nature", "cell", "pubmed", "sciencedirect", "frontiers",
    "arxiv", "ieee", "acm", "jstor"]

  const ScientificPaths: seq<string> := [
    "/article/", "/journal/", "/abstract/", "/doi/", "/publication/",
    "/paper/", "/research/", "/science/", "/content/", "/fulltext/"]

  const NewsSitePatterns: seq<string> := [
    "news", "times", "post", "tribune", "herald", "guardian", "bbc", "cnn",
    "nyt", "reuters", "bloomberg"]

  const ComplexPatterns: seq<string> := [
    "angular", "react", "vue", "spa", "dashboard", "app.",
    "facebook", "twitter", "linkedin", "instagram", "youtube"]

  /** The scientific test: a TLD fragment, a publisher word, or a path segment. */
  predicate LooksScientific(domain: string, path: string) {
    AnyIn(ScientificTlds, domain) || AnyIn(ScientificPatterns, domain) || AnyIn(ScientificPaths, path)
  }

  function WebsiteKind(domain: string, path: string): (k: SiteKind)
    ensures k == Scientific <==> LooksScientific(domain, path)
    ensures k == News <==> !LooksScientific(domain, path) && AnyIn(NewsSitePatterns, domain)
    ensures k == Standard <==>
      !LooksScientific(domain, path) && !AnyIn(NewsSitePatterns, domain)
      && !AnyInEither(ComplexPatterns, domain, path)
  {
    if AnyIn(ScientificTlds, domain) then Scientific
    else if AnyIn(ScientificPatterns, domain) then Scientific
    else if AnyIn(ScientificPaths, path) then Scientific
    else if AnyIn(NewsSitePatterns, domain) then News
    else if AnyInEither(ComplexPatterns, domain, path) then Complex
    else Standard
  }

  /** `classify_website(url)`. */
  function ClassifyWebsite(url: string): (k: SiteKind)
  {
    WebsiteKind(Domain(url), Path(url))
  }

  function KindRank(k: SiteKind): nat {
    match k
    case Scientific => 3
    case News => 2
    case Complex => 1
    case Standard => 0
  }

  /** Longer hosts and paths containing the shorter ones never move down the chain. */
  lemma {:induction false} WebsiteKindExtension(d: string, p: string, a: string, b: string, c: string, e: string)
    ensures KindRank(WebsiteKind(a + d + b, c + p + e)) >= KindRank(WebsiteKind(d, p))
  {
    if AnyIn(ScientificTlds, d) {
      AnyInExtended(ScientificTlds, d, a, b);
    } else if AnyIn(ScientificPatterns, d) {
      AnyInExtended(ScientificPatterns, d, a, b);
    } else if AnyIn(ScientificPaths, p) {
      AnyInExtended(ScientificPaths, p, c, e);
    } else if AnyIn(NewsSitePatterns, d) {
      AnyInExtended(NewsSitePatterns, d, a, b);
    } else if AnyInEither(ComplexPatterns, d, p) {
      AnyInEitherExtended(ComplexPatterns, d, p, a, b, c, e);
    }
  }

  /** Publisher hosts that the router sends to Scrapy Cloud are also scientific sites. */
  lemma {:induction false} PublisherIsScientific(domain: string, path: string)
    requires Contains(domain, "springer") || Contains(domain, "sciencedirect") || Contains(domain, "ieee")
    ensures Complexity(domain, path) == ScrapyCloud
    ensures WebsiteKind(domain, path) == Scientific
  {
    if Contains(domain, "springer") {
      assert Contains(domain, AcademicPatterns[1]) && Contains(domain, ScientificPatterns[10]);
    } else if Contains(domain, "sciencedirect") {
      assert Contains(domain, AcademicPatterns[0]) && Contains(domain, ScientificPatterns[16]);
    } else {
      assert Contains(domain, AcademicPatterns[5]) && Contains(domain, ScientificPatterns[19]);
    }
  }
}
