/**
 * `ZyteServiceRouter.scrape_with_http`: the status check and the content
 * extraction cascade (selector elements, then paragraphs, then the body),
 * over abstract lists of candidate element texts.
 */
module HttpExtraction {
  import opened Wrappers
  import opened Strings
  import opened Lists
  import opened Pages

  /**
   * An element matched by a main-content selector: `get_text()` of the
   * whole element, and `get_text(separator=' ', strip=True)` after its
   * scripts, navigation, footers and sidebars are removed.
   */
  datatype Element = Element(rawText: string, cleanText: string)

  /**
   * What the parsed page offers the cascade: the title, the elements each
   * of the thirteen main selectors matches (in selector order), the
   * stripped text of every `<p>`, and the cleaned text of `<body>` if any.
   */
  datatype Page = Page(
    title: string,
    selectorMatches: seq<seq<Element>>,
    paragraphs: seq<string>,
    body: Option<string>)

  /** The fetch: an exception, or a status code and (for 200) the parsed page. */
  datatype HttpResponse = HttpResponse(status: int, page: Page)

  /** An element is used when it is not tiny and its cleaned text is substantial. */
  predicate Qualifies(e: Element) {
    |e.rawText| >= 100 && |e.cleanText| > 200
  }

  /** The cleaned text of the first qualifying element of one selector's matches. */
  function FirstInGroup(es: seq<Element>): (r: Option<string>)
    ensures r.Some? ==> |r.value| > 200
    decreases |es|
  {
    if es == [] then None
    else if Qualifies(es[0]) then Some(es[0].cleanText)
    else FirstInGroup(es[1..])
  }

  /** The selector stage: the first qualifying element, selector by selector. */
  function SelectorText(groups: seq<seq<Element>>): (r: Option<string>)
    ensures r.Some? ==> |r.value| > 200
    decreases |groups|
  {
    if groups == [] then None
    else match FirstInGroup(groups[0])
      case Some(t) => Some(t)
      case None => SelectorText(groups[1..])
  }

  predicate SubstantialParagraph(p: string) {
    |p| > 40
  }

  /** The text the cascade settles on, before whitespace is collapsed. */
  function CascadeText(page: Page): string {
    Cascade(SelectorContent(page.selectorMatches), Filter(page.paragraphs, SubstantialParagraph), page.body)
  }

  /** The three stages, given what each of them found. */
  function Cascade(fromSelectors: string, kept: seq<string>, body: Option<string>): string {
    var content := if fromSelectors != "" then fromSelectors
                   else if kept != [] then Join(" ", kept)
                   else "";
    if (content == "" || |content| < 200) && body.Some? then body.value
    else content
  }

  /** The text the selector stage yields, "" when no element qualifies. */
  function SelectorContent(groups: seq<seq<Element>>): string {
    match SelectorText(groups)
    case Some(t) => t
    case None => ""
  }

  /** The `for selector in main_selectors` loop of `scrape_with_http`. */
  method SelectorStage(groups: seq<seq<Element>>) returns (content: string)
    ensures content == SelectorContent(groups)
  {
    content := "";
    var i := 0;
    while i < |groups|
      invariant 0 <= i <= |groups|
      invariant content == ""
      invariant SelectorText(groups) == SelectorText(groups[i..])
    {
      var elements := groups[i];
      var j := 0;
      while j < |elements|
        invariant 0 <= j <= |elements|
        invariant content == ""
        invariant FirstInGroup(elements) == FirstInGroup(elements[j..])
      {
        var element := elements[j];
        if |element.rawText| < 100 {
          j := j + 1;
          continue;
        }
        if |element.cleanText| > 200 {
          content := element.cleanText;
          break;
        }
        j := j + 1;
      }
      assert groups[i..] == [groups[i]] + groups[i + 1..];
      if content != "" {
        assert FirstInGroup(elements) == Some(content);
        break;
      }
      i := i + 1;
    }
    if content == "" {
      assert groups[i..] == [];
    }
  }

  /** The paragraph loop: the stripped paragraphs longer than 40 characters. */
  method KeepParagraphs(ps: seq<string>) returns (kept: seq<string>)
    ensures kept == Filter(ps, SubstantialParagraph)
  {
    kept := [];
    var k := 0;
    while k < |ps|
      invariant 0 <= k <= |ps|
      invariant kept == Filter(ps[..k], SubstantialParagraph)
    {
      var pText := ps[k];
      assert ps[..k + 1][..k] == ps[..k];
      if |pText| > 40 {
        kept := kept + [pText];
      }
      k := k + 1;
    }
    assert ps[..k] == ps;
  }

  /** The content extraction of `scrape_with_http`: selectors, paragraphs, body, then whitespace clean-up. */
  method ExtractContent(page: Page) returns (content: string)
    ensures content == Normalize(CascadeText(page))
  {
    content := SelectorStage(page.selectorMatches);
    var paragraphs: seq<string> := [];
    if content == "" {
      paragraphs := KeepParagraphs(page.paragraphs);
      if paragraphs != [] {
        content := Join(" ", paragraphs);
      }
    }
    if content == "" || |content| < 200 {
      if page.body.Some? {
        content := page.body.value;
      }
    }
    assert content == Cascade(SelectorContent(page.selectorMatches), Filter(page.paragraphs, SubstantialParagraph), page.body);
    content := Normalize(content);
  }

  /** The dictionary `scrape_with_http` returns for what the GET request produced. */
  function HttpResult(url: string, fetch: Attempt<HttpResponse>): ScrapeResult {
    match fetch
    case Raised(message) => Failure(url, message)
    case Returned(response) =>
      if response.status != 200 then Failure(url, "HTTP error: " + IntToString(response.status))
      else
        var content := Normalize(CascadeText(response.page));
        ScrapeResult(url, response.page.title, content,
                     if content != "" then "" else "Failed to extract content")
  }

  /** `scrape_with_http(url)`, given what the GET request produced. */
  method ScrapeWithHttp(url: string, fetch: Attempt<HttpResponse>) returns (r: ScrapeResult)
    ensures r == HttpResult(url, fetch)
    ensures r.url == url
    ensures fetch.Raised? ==> r == Failure(url, fetch.message)
    ensures fetch.Returned? && fetch.value.status != 200 ==>
      r == Failure(url, "HTTP error: " + IntToString(fetch.value.status))
    ensures fetch.Returned? && fetch.value.status == 200 ==>
      && r.title == fetch.value.page.title
      && r.content == Normalize(CascadeText(fetch.value.page))
      && (r.error == "" <==> r.content != "")
      && (r.error != "" ==> r.error == "Failed to extract content")
  {
    if fetch.Raised? {
      return Failure(url, fetch.message);
    }
    var response := fetch.value;
    if response.status != 200 {
      return Failure(url, "HTTP error: " + IntToString(response.status));
    }
    var content := ExtractContent(response.page);
    r := ScrapeResult(url, response.page.title, content,
                      if content != "" then "" else "Failed to extract content");
  }

  // ----- What the cascade promises -----

  /** No qualifying element at all exactly when the selector stage finds nothing. */
  lemma {:induction false} SelectorTextNone(groups: seq<seq<Element>>)
    ensures SelectorText(groups).None? <==>
      forall i, j :: 0 <= i < |groups| && 0 <= j < |groups[i]| ==> !Qualifies(groups[i][j])
    decreases |groups|
  {
    if groups != [] {
      SelectorTextNone(groups[1..]);
      GroupNone(groups[0]);
      forall i, j | 1 <= i < |groups| && 0 <= j < |groups[i]|
        ensures groups[i][j] == groups[1..][i - 1][j]
      {
      }
    }
  }

  lemma {:induction false} GroupNone(es: seq<Element>)
    ensures FirstInGroup(es).None? <==> forall j :: 0 <= j < |es| ==> !Qualifies(es[j])
    decreases |es|
  {
    if es != [] {
      GroupNone(es[1..]);
      forall j | 1 <= j < |es| ensures es[j] == es[1..][j - 1] { }
    }
  }

  lemma {:induction false} GroupFirst(es: seq<Element>) returns (j: nat)
    requires FirstInGroup(es).Some?
    ensures j < |es| && Qualifies(es[j]) && FirstInGroup(es).value == es[j].cleanText
    ensures forall k :: 0 <= k < j ==> !Qualifies(es[k])
    decreases |es|
  {
    if Qualifies(es[0]) {
      j := 0;
    } else {
      var j1 := GroupFirst(es[1..]);
      j := j1 + 1;
      forall k | 1 <= k < j ensures es[k] == es[1..][k - 1] { }
    }
  }

  /**
   * The selector stage picks the first qualifying element in selector
   * order, then element order.
   */
  lemma {:induction false} SelectorTextIsFirst(groups: seq<seq<Element>>) returns (i: nat, j: nat)
    requires SelectorText(groups).Some?
    ensures i < |groups| && j < |groups[i]|
    ensures Qualifies(groups[i][j]) && SelectorText(groups).value == groups[i][j].cleanText
    ensures forall k :: 0 <= k < j ==> !Qualifies(groups[i][k])
    ensures forall a, b :: 0 <= a < i && 0 <= b < |groups[a]| ==> !Qualifies(groups[a][b])
    decreases |groups|
  {
    if FirstInGroup(groups[0]).Some? {
      i := 0;
      j := GroupFirst(groups[0]);
    } else {
      GroupNone(groups[0]);
      var i1, j1 := SelectorTextIsFirst(groups[1..]);
      i, j := i1 + 1, j1;
      forall a, b | 1 <= a < i && 0 <= b < |groups[a]| ensures groups[a][b] == groups[1..][a - 1][b] { }
    }
  }

  /** Substantial selector text is used as is: paragraphs and body are never consulted. */
  lemma SelectorTextWins(page: Page)
    requires SelectorText(page.selectorMatches).Some?
    ensures CascadeText(page) == SelectorText(page.selectorMatches).value
  {
  }

  /** Without selector text, the joined substantial paragraphs are kept unless too short and a body exists. */
  lemma ParagraphsUsed(page: Page)
    requires SelectorText(page.selectorMatches).None?
    requires Filter(page.paragraphs, SubstantialParagraph) != []
    requires |Join(" ", Filter(page.paragraphs, SubstantialParagraph))| >= 200 || page.body.None?
    ensures CascadeText(page) == Join(" ", Filter(page.paragraphs, SubstantialParagraph))
  {
    var kept := Filter(page.paragraphs, SubstantialParagraph);
    JoinNonEmpty(kept);
  }

  /** Joining non-empty pieces gives a non-empty text. */
  lemma {:induction false} JoinNonEmpty(parts: seq<string>)
    requires parts != [] && forall k :: 0 <= k < |parts| ==> |parts[k]| > 0
    ensures |Join(" ", parts)| >= |parts[0]|
  {
  }

  /** The body replaces content that is missing or under 200 characters. */
  lemma BodyFallback(page: Page)
    requires page.body.Some?
    requires SelectorText(page.selectorMatches).None?
    requires var kept := Filter(page.paragraphs, SubstantialParagraph);
      kept == [] || |Join(" ", kept)| < 200
    ensures CascadeText(page) == page.body.value
  {
  }

  /** The stored content is always whitespace-normalized. */
  lemma ContentIsNormal(page: Page)
    ensures IsNormal(Normalize(CascadeText(page)))
  {
    NormalizeIsNormal(CascadeText(page));
  }
}
