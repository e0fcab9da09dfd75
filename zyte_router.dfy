/**
 * `ZyteServiceRouter`: the cache-then-classify-then-dispatch router, the
 * ordered fallback chain, the three-step chain for scientific sites and the
 * batch scrape over the worker pool. Every scraping strategy other than
 * plain HTTP is an oracle from URL to outcome; plain HTTP is the modelled
 * extraction cascade over an oracle for the GET request.
 */
module ZyteRouting {
  import opened Wrappers
  import opened Strings
  import opened Lists
  import opened Pages
  import opened HttpExtraction
  import opened SiteClassification
  import CacheManager
  import WorkerPool

  /** What each strategy produces for a URL. */
  datatype Strategies = Strategies(
    httpFetch: string -> Attempt<HttpResponse>,
    zyteApi: string -> Attempt<ScrapeResult>,
    scrapyCloud: string -> Attempt<ScrapeResult>,
    scientificHttp: string -> Attempt<ScrapeResult>)

  /** The strategy `scrape_with_optimal_service` calls for a service. */
  function Dispatch(service: Service, url: string, s: Strategies): (r: Attempt<ScrapeResult>)
    ensures service == DirectHttp ==> r == Returned(HttpResult(url, s.httpFetch(url)))
    ensures service == ZyteApi ==> r == s.zyteApi(url)
    ensures service == ScrapyCloud ==> r == s.scrapyCloud(url)
  {
    match service
    case DirectHttp => Returned(HttpResult(url, s.httpFetch(url)))
    case ZyteApi => s.zyteApi(url)
    case ScrapyCloud => s.scrapyCloud(url)
  }

  /** An outcome worth keeping: returned, with more than 200 characters of content. */
  predicate Qualifies(a: Attempt<ScrapeResult>) {
    a.Returned? && HasContentOver(a.value, 200)
  }

  // ----- _scrape_with_fallback_chain -----

  /** `str(last_error)`: "None" when no method raised. */
  function ErrorText(lastError: Option<string>): string {
    match lastError
    case None => "None"
    case Some(m) => m
  }

  /** What the chain returns from `attempts` on, with `lastError` the error so far. */
  function ChainOutcome(url: string, attempts: seq<Attempt<ScrapeResult>>, lastError: Option<string>): ScrapeResult
    decreases |attempts|
  {
    if attempts == [] then Failure(url, "All methods failed: " + ErrorText(lastError))
    else if Qualifies(attempts[0]) then attempts[0].value
    else ChainOutcome(url, attempts[1..], if attempts[0].Raised? then Some(attempts[0].message) else lastError)
  }

  /** The message of the last method that raised, else `e`. */
  function LastRaised(attempts: seq<Attempt<ScrapeResult>>, e: Option<string>): Option<string>
    decreases |attempts|
  {
    if attempts == [] then e
    else if attempts[|attempts| - 1].Raised? then Some(attempts[|attempts| - 1].message)
    else LastRaised(attempts[..|attempts| - 1], e)
  }

  function ApplyTo(url: string): (string -> Attempt<ScrapeResult>) -> Attempt<ScrapeResult> {
    (m: string -> Attempt<ScrapeResult>) => m(url)
  }

  /** What each method does for the URL, in list order. */
  function Outcomes(methods: seq<string -> Attempt<ScrapeResult>>, url: string): seq<Attempt<ScrapeResult>> {
    Map(methods, ApplyTo(url))
  }

  /**
   * `_scrape_with_fallback_chain(url, methods)`; `tried` is the number of
   * methods invoked.
   */
  method FallbackChain(url: string, methods: seq<string -> Attempt<ScrapeResult>>)
    returns (r: ScrapeResult, tried: nat)
    ensures r == ChainOutcome(url, Outcomes(methods, url), None)
    ensures tried <= |methods|
    ensures forall i :: 0 <= i < tried - 1 ==> !Qualifies(methods[i](url))
    ensures tried > 0 && Qualifies(methods[tried - 1](url)) ==> r == methods[tried - 1](url).value
    ensures tried == 0 || !Qualifies(methods[tried - 1](url)) ==> tried == |methods|
  {
    var attempts := Outcomes(methods, url);
    var lastError: Option<string> := None;
    var i := 0;
    while i < |methods|
      invariant 0 <= i <= |methods|
      invariant ChainOutcome(url, attempts, None) == ChainOutcome(url, attempts[i..], lastError)
      invariant forall j :: 0 <= j < i ==> !Qualifies(methods[j](url))
    {
      var outcome := methods[i](url);
      assert outcome == attempts[i];
      assert attempts[i..][1..] == attempts[i + 1..];
      if outcome.Returned? && |outcome.value.content| > 200 {
        return outcome.value, i + 1;
      }
      if outcome.Raised? {
        lastError := Some(outcome.message);
      }
      i := i + 1;
    }
    r := Failure(url, "All methods failed: " + ErrorText(lastError));
    tried := |methods|;
  }

  /** The chain returns the first qualifying outcome, whatever comes before or after it. */
  lemma {:induction false} ChainPicksFirst(url: string, attempts: seq<Attempt<ScrapeResult>>, e: Option<string>, j: nat)
    requires j < |attempts| && Qualifies(attempts[j])
    requires forall i :: 0 <= i < j ==> !Qualifies(attempts[i])
    ensures ChainOutcome(url, attempts, e) == attempts[j].value
    decreases j
  {
    if j > 0 {
      ChainPicksFirst(url, attempts[1..], if attempts[0].Raised? then Some(attempts[0].message) else e, j - 1);
    }
  }

  /** When nothing qualifies, the error names the last exception raised ("None" if none). */
  lemma {:induction false} ChainAllFail(url: string, attempts: seq<Attempt<ScrapeResult>>, e: Option<string>)
    requires forall i :: 0 <= i < |attempts| ==> !Qualifies(attempts[i])
    ensures ChainOutcome(url, attempts, e) == Failure(url, "All methods failed: " + ErrorText(LastRaised(attempts, e)))
    decreases |attempts|
  {
    if attempts != [] {
      var e1 := if attempts[0].Raised? then Some(attempts[0].message) else e;
      ChainAllFail(url, attempts[1..], e1);
      LastRaisedCons(attempts, e);
    }
  }

  lemma {:induction false} LastRaisedCons(attempts: seq<Attempt<ScrapeResult>>, e: Option<string>)
    requires attempts != []
    ensures LastRaised(attempts, e) == LastRaised(attempts[1..], if attempts[0].Raised? then Some(attempts[0].message) else e)
    decreases |attempts|
  {
    var n := |attempts|;
    if n > 1 && !attempts[n - 1].Raised? {
      assert attempts[..n - 1][1..] == attempts[1..][..n - 2];
      LastRaisedCons(attempts[..n - 1], e);
    }
  }

  /** Methods after the first qualifying one are never looked at. */
  lemma {:induction false} ChainIgnoresLater(url: string, a: seq<Attempt<ScrapeResult>>, b: seq<Attempt<ScrapeResult>>,
                                             c: seq<Attempt<ScrapeResult>>, e: Option<string>, j: nat)
    requires j < |a| && Qualifies(a[j])
    ensures ChainOutcome(url, a + b, e) == ChainOutcome(url, a + c, e)
  {
    var first: nat :| first <= j && Qualifies(a[first]) && forall i :: 0 <= i < first ==> !Qualifies(a[i]) by {
      FirstQualifying(a, j);
    }
    ChainPicksFirst(url, a + b, e, first);
    ChainPicksFirst(url, a + c, e, first);
  }

  lemma FirstQualifying(a: seq<Attempt<ScrapeResult>>, j: nat)
    requires j < |a| && Qualifies(a[j])
    ensures exists first: nat :: first <= j && Qualifies(a[first]) && forall i :: 0 <= i < first ==> !Qualifies(a[i])
    decreases j
  {
    if exists i :: 0 <= i < j && Qualifies(a[i]) {
      var i :| 0 <= i < j && Qualifies(a[i]);
      FirstQualifying(a, i);
    } else {
      assert forall i :: 0 <= i < j ==> !Qualifies(a[i]);
    }
  }

  // ----- The chain for scientific sites -----

  /** Zyte API is configured: a key that is not the "ENTER_YOUR..." placeholder. */
  predicate ZyteConfigured(apiKey: string) {
    apiKey != "" && !IsPrefix("ENTER_YOUR", apiKey)
  }

  /**
   * The scientific branch of `scrape_url_with_strategy`: the scientific HTTP
   * scrape if it got more than 300 characters, else Zyte API under the same
   * bar when configured, else plain HTTP; an exception falls back to plain
   * HTTP, which itself never raises.
   */
  function ScientificChain(url: string, apiKey: string, s: Strategies): ScrapeResult {
    var plain := HttpResult(url, s.httpFetch(url));
    match s.scientificHttp(url)
    case Raised(_) => plain
    case Returned(scientific) =>
      if HasContentOver(scientific, 300) then scientific
      else if !ZyteConfigured(apiKey) then plain
      else match s.zyteApi(url)
        case Raised(_) => plain
        case Returned(zyte) => if HasContentOver(zyte, 300) then zyte else plain
  }

  /** The chain ends with more than 300 characters of content or with the plain HTTP result. */
  lemma ScientificChainOutcome(url: string, apiKey: string, s: Strategies)
    ensures var r := ScientificChain(url, apiKey, s);
      || (s.scientificHttp(url) == Returned(r) && HasContentOver(r, 300))
      || (ZyteConfigured(apiKey) && s.zyteApi(url) == Returned(r) && HasContentOver(r, 300))
      || r == HttpResult(url, s.httpFetch(url))
  {
  }

  /** A rich scientific scrape is used whatever Zyte API and plain HTTP would give. */
  lemma ScientificFirst(url: string, apiKey: string, s: Strategies, zyte: string -> Attempt<ScrapeResult>,
                        fetch: string -> Attempt<HttpResponse>)
    requires s.scientificHttp(url).Returned? && HasContentOver(s.scientificHttp(url).value, 300)
    ensures ScientificChain(url, apiKey, s) == s.scientificHttp(url).value
    ensures ScientificChain(url, apiKey, s.(zyteApi := zyte, httpFetch := fetch)) == ScientificChain(url, apiKey, s)
  {
  }

  /** Without a real key Zyte API is never consulted. */
  lemma ZyteNeedsKey(url: string, apiKey: string, s: Strategies, zyte: string -> Attempt<ScrapeResult>)
    requires !ZyteConfigured(apiKey)
    ensures ScientificChain(url, apiKey, s.(zyteApi := zyte)) == ScientificChain(url, apiKey, s)
  {
  }

  /** The placeholder key from the configuration template does not count as a key. */
  lemma PlaceholderKeyIsUnset()
    ensures !ZyteConfigured("ENTER_YOUR_ZYTE_API_KEY")
    ensures !ZyteConfigured("")
    ensures ZyteConfigured("abc123")
  {
    assert "ENTER_YOUR_ZYTE_API_KEY"[..10] == "ENTER_YOUR";
  }

  // ----- The router's decisions over the content store -----

  /** `scrape_with_optimal_service`: the outcome and the content store afterwards. */
  function Optimal(store: CacheManager.Store<ScrapeResult>, url: string, now: real, s: Strategies)
    : (CacheManager.Store<ScrapeResult>, Attempt<ScrapeResult>)
  {
    match CacheManager.Lookup(store, url, now)
    case Some(hit) => (store, Returned(hit))
    case None =>
      var r := Dispatch(ClassifySiteComplexity(url), url, s);
      if Qualifies(r) then (CacheManager.Put(store, url, r.value, CacheManager.ContentTtl(url), now), r)
      else (store, r)
  }

  /** A cache hit is returned as stored and no strategy is consulted. */
  lemma CacheHitNoStrategy(store: CacheManager.Store<ScrapeResult>, url: string, now: real, s: Strategies, s2: Strategies)
    requires CacheManager.Lookup(store, url, now).Some?
    ensures Optimal(store, url, now, s) == Optimal(store, url, now, s2)
    ensures Optimal(store, url, now, s) == (store, Returned(CacheManager.Lookup(store, url, now).value))
  {
  }

  /** On a miss the classified service's strategy decides the outcome. */
  lemma CacheMissDispatches(store: CacheManager.Store<ScrapeResult>, url: string, now: real, s: Strategies)
    requires CacheManager.Lookup(store, url, now).None?
    ensures Optimal(store, url, now, s).1 == Dispatch(ClassifySiteComplexity(url), url, s)
  {
  }

  /**
   * The store changes only to record a result with more than 200
   * characters, which is then read back until its TTL runs out; every
   * other key reads as before.
   */
  lemma OptimalCachesOnlyUseful(store: CacheManager.Store<ScrapeResult>, url: string, now: real, s: Strategies,
                                other: string, t: real)
    ensures var (after, r) := Optimal(store, url, now, s);
      && (after != store ==> Qualifies(r) && CacheManager.Lookup(after, url, now) == Some(r.value))
      && (other != url ==> CacheManager.Lookup(after, other, t) == CacheManager.Lookup(store, other, t))
  {
    var (after, r) := Optimal(store, url, now, s);
    if after != store {
      CacheManager.LookupAfterPut(store, url, r.value, CacheManager.ContentTtl(url), now, now);
    }
    if other != url && after != store {
      CacheManager.LookupOtherKey(store, url, other, r.value, CacheManager.ContentTtl(url), now, t);
    }
  }

  /** `scrape_url_with_strategy`: cache, then the scientific chain or the router. */
  function WithStrategy(store: CacheManager.Store<ScrapeResult>, url: string, now: real, apiKey: string, s: Strategies)
    : (CacheManager.Store<ScrapeResult>, Attempt<ScrapeResult>)
  {
    match CacheManager.Lookup(store, url, now)
    case Some(hit) => (store, Returned(hit))
    case None =>
      if ClassifyWebsite(url) == Scientific then (store, Returned(ScientificChain(url, apiKey, s)))
      else Optimal(store, url, now, s)
  }

  /** Scientific sites never raise and never write the cache. */
  lemma ScientificNotCached(store: CacheManager.Store<ScrapeResult>, url: string, now: real, apiKey: string, s: Strategies)
    requires ClassifyWebsite(url) == Scientific
    ensures WithStrategy(store, url, now, apiKey, s).0 == store
    ensures WithStrategy(store, url, now, apiKey, s).1.Returned?
  {
  }

  class ZyteServiceRouter {
    const apiKey: string
    const projectId: string
    const cache: CacheManager.ScrapeCache

    /** `ZyteServiceRouter(api_key, project_id)`, whose `ScrapeCache()` opens the default directory `dir`. */
    constructor (apiKey: string, projectId: string, dir: CacheManager.CacheDir)
      ensures this.apiKey == apiKey && this.projectId == projectId
      ensures fresh(cache)
      ensures cache.content == dir.content && cache.search == dir.search && cache.metadata == dir.metadata
    {
      this.apiKey := apiKey;
      this.projectId := projectId;
      cache := new CacheManager.ScrapeCache(dir);
    }

    /** `scrape_with_optimal_service(url)` at time `now`. */
    method ScrapeWithOptimalService(url: string, now: real, s: Strategies) returns (r: Attempt<ScrapeResult>)
      modifies cache
      ensures (cache.content, r) == Optimal(old(cache.content), url, now, s)
      ensures cache.search == old(cache.search) && cache.metadata == old(cache.metadata)
    {
      var cached := cache.GetContent(url, now);
      if cached.Some? {
        return Returned(cached.value);
      }
      var serviceType := ClassifySiteComplexity(url);
      if serviceType == DirectHttp {
        var result := ScrapeWithHttp(url, s.httpFetch(url));
        r := Returned(result);
      } else if serviceType == ZyteApi {
        r := s.zyteApi(url);
      } else {
        r := s.scrapyCloud(url);
      }
      if r.Returned? && |r.value.content| > 200 {
        cache.SetContent(url, r.value, now);
      }
    }

    /** `scrape_url_with_strategy(url)` at time `now`. */
    method ScrapeUrlWithStrategy(url: string, now: real, s: Strategies) returns (r: Attempt<ScrapeResult>)
      modifies cache
      ensures (cache.content, r) == WithStrategy(old(cache.content), url, now, apiKey, s)
      ensures cache.search == old(cache.search) && cache.metadata == old(cache.metadata)
    {
      var cached := cache.GetContent(url, now);
      if cached.Some? {
        return Returned(cached.value);
      }
      var siteType := ClassifyWebsite(url);
      if siteType == Scientific {
        var result := ScrapeScientific(url, s);
        return Returned(result);
      }
      r := ScrapeWithOptimalService(url, now, s);
    }

    /** The scientific branch of `scrape_url_with_strategy`. */
    method ScrapeScientific(url: string, s: Strategies) returns (r: ScrapeResult)
      ensures r == ScientificChain(url, apiKey, s)
    {
      var scientific := s.scientificHttp(url);
      if scientific.Returned? {
        if |scientific.value.content| > 300 {
          return scientific.value;
        }
        if apiKey != "" && !IsPrefix("ENTER_YOUR", apiKey) {
          var zyte := s.zyteApi(url);
          if zyte.Returned? && |zyte.value.content| > 300 {
            return zyte.value;
          }
        }
      }
      r := ScrapeWithHttp(url, s.httpFetch(url));
    }

    /** One `scrape_url_with_strategy` task per scheduled URL, run in schedule order. */
    method RunStrategies(scheduled: seq<string>, now: real, s: Strategies) returns (outcomes: seq<Attempt<ScrapeResult>>)
      modifies cache
      ensures (cache.content, outcomes) == RunAll(old(cache.content), scheduled, now, apiKey, s)
      ensures cache.search == old(cache.search) && cache.metadata == old(cache.metadata)
    {
      outcomes := [];
      var k := 0;
      while k < |scheduled|
        invariant 0 <= k <= |scheduled|
        invariant (cache.content, outcomes) == RunAll(old(cache.content), scheduled[..k], now, apiKey, s)
        invariant cache.search == old(cache.search) && cache.metadata == old(cache.metadata)
      {
        assert scheduled[..k + 1][..k] == scheduled[..k];
        var outcome := ScrapeUrlWithStrategy(scheduled[k], now, s);
        outcomes := outcomes + [outcome];
        k := k + 1;
      }
      assert scheduled[..k] == scheduled;
    }

    /**
     * `scrape_urls_in_parallel(urls)`: the scrape tasks run in the order the pool
     * schedules them, finish in `completion` order, and only results with
     * more than 200 characters of content are returned.
     */
    method ScrapeUrlsInParallel(urls: seq<string>, now: real, s: Strategies, completion: seq<nat>, maxConcurrent: int)
      returns (valid: seq<ScrapeResult>, collected: seq<ScrapeResult>)
      requires WorkerPool.CompletionOrder(completion, |urls|)
      modifies cache
      ensures |Batch(old(cache.content), urls, now, apiKey, s).1| == |urls|
      ensures cache.content == Batch(old(cache.content), urls, now, apiKey, s).0
      ensures collected == WorkerPool.Collected(Batch(old(cache.content), urls, now, apiKey, s).1, completion)
      ensures forall r :: r in collected ==>
                r.content != "" && Returned(r) in Batch(old(cache.content), urls, now, apiKey, s).1
      ensures forall k :: 0 <= k < |urls| && WorkerPool.Kept(Batch(old(cache.content), urls, now, apiKey, s).1[k]) ==>
                Batch(old(cache.content), urls, now, apiKey, s).1[k].value in collected
      ensures valid == Filter(collected, IsUseful)
      ensures cache.search == old(cache.search) && cache.metadata == old(cache.metadata)
    {
      var pool := new WorkerPool.ScraperWorkerPool(maxConcurrent, 2);
      var order, scheduled := pool.Plan(urls);
      assert |scheduled| == |urls| by {
        assert |multiset(scheduled)| == |multiset(urls)|;
      }
      var outcomes := RunStrategies(scheduled, now, s);
      collected := WorkerPool.Collect(outcomes, completion);
      valid := Filter(collected, IsUseful);
    }
  }

  /**
   * The scrape tasks of a batch run one after another in `scheduled`
   * order: each sees the content store the earlier ones left behind.
   */
  function RunAll(store: CacheManager.Store<ScrapeResult>, scheduled: seq<string>, now: real, apiKey: string, s: Strategies)
    : (r: (CacheManager.Store<ScrapeResult>, seq<Attempt<ScrapeResult>>))
    ensures |r.1| == |scheduled|
    decreases |scheduled|
  {
    if scheduled == [] then (store, [])
    else
      var before := RunAll(store, scheduled[..|scheduled| - 1], now, apiKey, s);
      var last := WithStrategy(before.0, scheduled[|scheduled| - 1], now, apiKey, s);
      (last.0, before.1 + [last.1])
  }

  /** The order in which the pool of `scrape_urls_in_parallel` starts its tasks. */
  function BatchSchedule(urls: seq<string>): seq<string> {
    WorkerPool.Schedule(WorkerPool.SortedDomains(urls, WorkerPool.Host), urls, WorkerPool.Host)
  }

  /** The new content store and the scrape outcomes of a batch, in schedule order. */
  function Batch(store: CacheManager.Store<ScrapeResult>, urls: seq<string>, now: real, apiKey: string, s: Strategies)
    : (CacheManager.Store<ScrapeResult>, seq<Attempt<ScrapeResult>>)
  {
    RunAll(store, BatchSchedule(urls), now, apiKey, s)
  }

  /** Outcome `i` is `scrape_url_with_strategy` of the `i`-th URL over the store the earlier tasks left. */
  lemma {:induction false} RunAllAt(store: CacheManager.Store<ScrapeResult>, scheduled: seq<string>, now: real,
                                    apiKey: string, s: Strategies, i: nat)
    requires i < |scheduled|
    ensures RunAll(store, scheduled, now, apiKey, s).1[i] ==
            WithStrategy(RunAll(store, scheduled[..i], now, apiKey, s).0, scheduled[i], now, apiKey, s).1
    decreases |scheduled|
  {
    var n := |scheduled| - 1;
    var before := RunAll(store, scheduled[..n], now, apiKey, s);
    var last := WithStrategy(before.0, scheduled[n], now, apiKey, s);
    assert RunAll(store, scheduled, now, apiKey, s).1 == before.1 + [last.1];
    if i < n {
      assert scheduled[..n][..i] == scheduled[..i];
      RunAllAt(store, scheduled[..n], now, apiKey, s, i);
    } else {
      assert scheduled[..i] == scheduled[..n];
    }
  }

  /**
   * Every URL of the batch has a task, and every task scrapes a URL of the
   * batch with `scrape_url_with_strategy`; so each collected result is
   * the strategy outcome of one of the URLs.
   */
  lemma BatchOutcomeOfUrl(store: CacheManager.Store<ScrapeResult>, urls: seq<string>, now: real, apiKey: string,
                          s: Strategies, i: nat)
    requires i < |urls|
    ensures |BatchSchedule(urls)| == |urls|
    ensures BatchSchedule(urls)[i] in urls
    ensures Batch(store, urls, now, apiKey, s).1[i] ==
            WithStrategy(RunAll(store, BatchSchedule(urls)[..i], now, apiKey, s).0, BatchSchedule(urls)[i], now, apiKey, s).1
  {
    var sched := BatchSchedule(urls);
    WorkerPool.ScheduleIsPermutation(urls, WorkerPool.Host);
    assert |multiset(sched)| == |multiset(urls)|;
    assert sched[i] in multiset(urls);
    RunAllAt(store, sched, now, apiKey, s, i);
  }

  /** Every URL of the batch is scheduled for scraping at least once. */
  lemma BatchCoversUrls(urls: seq<string>, u: string)
    requires u in urls
    ensures exists i :: 0 <= i < |BatchSchedule(urls)| && BatchSchedule(urls)[i] == u
  {
    WorkerPool.ScheduleIsPermutation(urls, WorkerPool.Host);
    assert u in multiset(BatchSchedule(urls));
  }

  /** The batch filter: more than 200 characters of content. */
  predicate IsUseful(r: ScrapeResult) {
    HasContentOver(r, 200)
  }

  /** The batch keeps exactly the collected results with more than 200 characters. */
  lemma BatchFilter(collected: seq<ScrapeResult>, r: ScrapeResult)
    ensures r in Filter(collected, IsUseful) <==> r in collected && |r.content| > 200
  {
    FilterKeeps(collected, IsUseful, r);
  }
}
