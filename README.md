# PureText-AI backend core in Dafny

This project models the decision and bookkeeping core of the PureText-AI plagiarism checker backend and proves properties of the model. Each module follows one source file:

- `SiteClassification`, `ZyteRouting`, `HttpExtraction` and `ScrapyJobs` model `ZyteServiceRouter` in `zyte_manager.py`:
  - the two URL classifiers;
  - the cache-then-classify-then-dispatch router;
  - the ordered fallback chain and the three-step chain for scientific sites;
  - the extraction cascade of `scrape_with_http`;
  - the Scrapy Cloud polling loop and the JSON-lines item reader.
- `Similarity` models the verdict of `similarity.py`: the fallbacks, the verbatim short-circuit, the share of matched sentences, highlight insertion, word chunking and the last-resort sentence split.
- `JobStore`, `Plagiarism` and `Analyze` model the job tables and their state machines:
  - `job_store.py`;
  - the plagiarism endpoints and pipelines of `plagiarism.py`;
  - `analyze.py`, which has its own jobs table.
- `SpiderQueue` models the FIFO of spider tasks, the results table and the start/stop flags of `spider_queue.py`.
- `WorkerPool` models domain grouping, the semaphore table, priority ordering and result collection in `worker_pool.py`.
- `CacheManager` models the TTL table and the three expiring stores of `cache_manager.py`.
- `Embedding` models the keyword theme ranking of `get_text_themes` in `embedding.py`.
- `SearchPhrases`, `Keywords`, `WebSearch` and `SourceFinder` model the search side of `scraping.py`:
  - phrase selection;
  - content relevance;
  - result filtering and ordering;
  - the search-engine fallback and the DuckDuckGo rows;
  - `find_and_scrape_sources_optimized`.
- `Strings`, `Lists`, `Urls`, `Quoting`, `Json`, `Pages` and `Wrappers` define the Python behaviour the rest relies on:
  - string `in`/`find`/`split`/`strip`/`lower`;
  - slicing and stable sorting;
  - `urlparse`;
  - `quote_plus`;
  - JSON-like values;
  - result dictionaries.

Where the source updates state in place, the model does too:
- the job tables, the cache stores, the spider queue, the router and the worker pool are classes whose methods state their whole new state in terms of the old;
- the loops of the source are methods with loop invariants, proved against specification functions.

Everything outside the process is a parameter of the operation that uses it:
- the network (aiohttp, Zyte API, Scrapy Cloud, search engines, Playwright);
- HTML parsing (what BeautifulSoup selects is a list of candidate texts);
- the sentence tokenizer and the embedding model;
- `time.time()`, `uuid.uuid4()` and `json.loads`.

A few behaviours of the code are easy to misread; the model follows the code as it stands:
- the percentage is the share of distinct matched sentences (similarity.py:150), not of matched characters;
- a sentence whose best score is over the threshold is a match (similarity.py:136-147): there is no paragraph-level corroboration stage and no second verification of embedding candidates;
- `matches` gets one entry for each sentence and each source whose best score is over the threshold (similarity.py:142), while a sentence counts once toward the percentage (the set of line 147);
- a new check job starts in "processing" (plagiarism.py:74-79); there is no separate "created" state;
- the DuckDuckGo redirect takes the text between the first "uddg=" and the next one (`split('uddg=')[1]`, scraping.py:620), not everything after it.

## Model

| member | source | states |
|---|---|---|
| `JobStore.FreshField` | backend/app/services/job_store.py:14-23 | a created job holds exactly status, created_at, updated_at, progress and the extra fields; status is the given one; timestamps are `now` and progress 0 unless an extra field overrides them |
| `JobStore.UpdatedField` | backend/app/services/job_store.py:37-38 | an update holds the old keys, the given fields and updated_at; a given field wins over the old value; updated_at is `now`; every other field keeps its old value |
| `JobStore.WithStatusField` | backend/app/services/job_store.py:48-51 | status and updated_at are overwritten; progress changes only when a progress value is supplied; every other field is kept |
| `JobStore.CompletedField` | backend/app/services/job_store.py:60-63 | completion sets status "completed", the result, progress 100 and updated_at; every other field is kept |
| `JobStore.FailedField` | backend/app/services/job_store.py:72-74 | failure sets status "failed", the error and updated_at; progress, result and every other field are kept |
| `JobStore.Age` | backend/app/services/job_store.py:84 | the age is `now - updated_at`; a missing updated_at counts as 0 (age `now`); a non-numeric one makes the subtraction raise |
| `JobStore.Kept` | backend/app/services/job_store.py:82-88 | the swept table keeps exactly the jobs that are not older than the limit, each unchanged |
| `JobStore.JobStore.constructor` | backend/app/services/job_store.py:8 | the table starts empty |
| `JobStore.JobStore.CreateJob` | backend/app/services/job_store.py:14-23 | the id now maps to the fresh job, replacing any job with that id; no other job changes; the stored job is returned |
| `JobStore.JobStore.GetJob` | backend/app/services/job_store.py:26-28 | None exactly for an unknown id, else the stored job |
| `JobStore.JobStore.UpdateJob` | backend/app/services/job_store.py:31-39 | an unknown id returns None and changes nothing; otherwise only that job is updated, and the updated job is returned |
| `JobStore.JobStore.SetJobStatus` | backend/app/services/job_store.py:42-51 | a no-op for an unknown id; otherwise only that job changes, as `WithStatusField` describes |
| `JobStore.JobStore.SetJobCompleted` | backend/app/services/job_store.py:54-63 | a no-op for an unknown id; otherwise only that job changes, as `CompletedField` describes |
| `JobStore.JobStore.SetJobFailed` | backend/app/services/job_store.py:66-74 | a no-op for an unknown id; otherwise only that job changes, as `FailedField` describes |
| `JobStore.JobStore.CleanupOldJobs` | backend/app/services/job_store.py:77-88 | when every age can be computed, the table becomes `Kept`; otherwise the sweep raises and nothing is removed |
| `JobStore.StaleIds` | backend/app/services/job_store.py:82-85 | the collection loop returns exactly the ids of the jobs older than the limit, or reports that an age cannot be computed |
| `JobStore.KeptIdempotent` | backend/app/services/job_store.py:77-88 | sweeping twice at the same time is sweeping once |
| `JobStore.StampedSurvives` | backend/app/services/job_store.py:37-38 | a job just stamped by `update_job` survives a sweep at the same time with any non-negative limit |
| `CacheManager.Ttl` | backend/app/services/cache_manager.py:29-35 | every TTL is a whole number of days, at least one; only the search TTL is exactly one day |
| `CacheManager.TtlOrder` | backend/app/services/cache_manager.py:29-35 | the five TTLs are 86400, 604800, 259200, 432000 and 2592000 seconds, with search < news < standard < academic < metadata |
| `CacheManager.ContentClass` | backend/app/services/cache_manager.py:54-59 | the content class is academic, news or standard |
| `CacheManager.ContentClassExtension` | backend/app/services/cache_manager.py:55-59 | academic fragments are checked before news fragments, so a domain that contains a shorter domain never gets a class further down the chain |
| `CacheManager.ContentTtl` | backend/app/services/cache_manager.py:52-62 | a content entry lives at least three days |
| `CacheManager.Lookup` | backend/app/services/cache_manager.py:41-47 | a read gives the stored value only before its expiry time; an absent or expired key gives None |
| `CacheManager.Put` | backend/app/services/cache_manager.py:62 | a write adds its key and leaves every other key's entry as it was |
| `CacheManager.Expire` | backend/app/services/cache_manager.py:83-86 | expiry keeps exactly the entries whose expiry time has not passed, each unchanged |
| `CacheManager.LookupAfterPut` | backend/app/services/cache_manager.py:49-62 | reading a key back after writing it gives the value until the TTL has passed, and None from then on |
| `CacheManager.LookupOtherKey` | backend/app/services/cache_manager.py:37-47 | a write never changes what another key reads |
| `CacheManager.ExpireKeepsLookups` | backend/app/services/cache_manager.py:83-86 | clearing expired entries changes no read taken at that time or later |
| `CacheManager.ScrapeCache.constructor` | backend/app/services/cache_manager.py:24-26 | the three stores hold what their `diskcache` directories already hold, so entries written by an earlier cache over the same directory are seen |
| `CacheManager.ScrapeCache.SetContent` | backend/app/services/cache_manager.py:49-62 | the content store gets the result with the TTL of the URL's content class; the search and metadata stores are unchanged |
| `CacheManager.ScrapeCache.SetSearchResults` | backend/app/services/cache_manager.py:70-73 | the search store gets the results with the search TTL; the other two stores are unchanged |
| `CacheManager.ScrapeCache.SetDomainInfo` | backend/app/services/cache_manager.py:79-81 | the metadata store gets the info under the raw domain with the metadata TTL; the other two stores are unchanged |
| `CacheManager.ScrapeCache.ClearExpired` | backend/app/services/cache_manager.py:83-86 | each store loses exactly its expired entries |
| `Embedding.Themes` | backend/app/services/embedding.py:48-95 | at least one theme; at most `max_themes` when that is positive; `["general"]` when no category scores |
| `Embedding.CountDomains` | backend/app/services/embedding.py:79-83 | the loop keeps the categories with a positive keyword count, each with its count, in table order |
| `Embedding.GetTextThemes` | backend/app/services/embedding.py:48-95 | the method returns `Themes(text, max_themes)` |
| `Embedding.GeneralIsNoCategory` | backend/app/services/embedding.py:64-73 | "general" names no category of the table |
| `Embedding.ThemesOccur` | backend/app/services/embedding.py:86-95 | the answer is `["general"]` exactly when no category is ranked; every ranked category is one of the counted categories, with a positive count |
| `Embedding.RankedOrder` | backend/app/services/embedding.py:86-89 | the ranked categories are in non-increasing count order, and the themes are their names |
| `Embedding.RankedStable` | backend/app/services/embedding.py:86 | categories with the same count stay in table order |
| `Embedding.CountsMeans` | backend/app/services/embedding.py:80-83 | a category appears in `domain_counts` exactly when its count is positive |
| `Embedding.ThemesIgnoreCase` | backend/app/services/embedding.py:76 | the themes ignore the case of the text |
| `Embedding.CountFits` | backend/app/services/embedding.py:81 | the non-overlapping occurrences of a keyword fit in the text |
| `Analyze.Admit` | backend/app/api/endpoints/analyze.py:22-44 | a non-empty text_input is always used: its "content" field when it parses as a JSON object that has one, else the raw text; otherwise the file text; the request fails when neither is given |
| `Analyze.AnalyzeJobs.constructor` | backend/app/api/endpoints/analyze.py:12 | the analyze jobs table starts empty |
| `Analyze.AnalyzeJobs.AnalyzeText` | backend/app/api/endpoints/analyze.py:14-66 | no input is rejected with 400 and a failing file read raises, neither touching the table; an admitted request stores the new job under its id and answers with that id |
| `Analyze.AnalyzeJobs.SetField` | backend/app/api/endpoints/analyze.py:72-89 | one field assignment `jobs[job_id][key] = v`: only that field of that job changes |
| `Analyze.AnalyzeJobs.Begin` | backend/app/api/endpoints/analyze.py:72-73 | the job gets status "processing" and progress 10 |
| `Analyze.AnalyzeJobs.StoreThemes` | backend/app/api/endpoints/analyze.py:76-78 | the job gets its themes and progress 50 |
| `Analyze.AnalyzeJobs.Finish` | backend/app/api/endpoints/analyze.py:81-90 | after the search the job gets urls, progress 100 and status "analyzed", or status "failed" and the error when the search raised |
| `Analyze.AnalyzeJobs.ProcessAnalysis` | backend/app/api/endpoints/analyze.py:68-90 | an unknown id changes nothing; otherwise only that job changes, to `Analysis` of it |
| `Analyze.ThemesOf` | backend/app/api/endpoints/analyze.py:76 | a job always gets between one and three themes; a content that is not a string gets `["general"]` |
| `Analyze.ThemesFor` | backend/app/api/endpoints/analyze.py:76 | the call to `get_text_themes` in the background task gives `ThemesOf` the content |
| `Analyze.NewJobFields` | backend/app/api/endpoints/analyze.py:49-57 | a new job has exactly the seven keys: status "processing", the content, empty themes, urls and sources, result None and progress 0 |
| `Analyze.AnalysisOutcome` | backend/app/api/endpoints/analyze.py:68-90 | the processed job holds the themes and keeps its content; a failing search leaves status "failed", progress 50 and the error; a successful one leaves status "analyzed", progress 100 and the urls |
| `Analyze.AnalyzedJobThemes` | backend/app/api/endpoints/analyze.py:46-90 | an admitted request's job ends with its own content and that content's themes |
| `SiteClassification.Complexity` | backend/app/services/zyte_manager.py:33-59 | Scrapy Cloud exactly when an academic pattern is in the host; direct HTTP exactly when no academic or news pattern is in the host and no JavaScript pattern is in the host or the path; Zyte API otherwise |
| `SiteClassification.PathOnlyDecidesJs` | backend/app/services/zyte_manager.py:53-59 | the path can only move a URL between Zyte API and direct HTTP, and only when the host matches no academic or news pattern |
| `SiteClassification.ComplexityExtension` | backend/app/services/zyte_manager.py:43-56 | a host and path that contain shorter ones never get a cheaper service than those |
| `SiteClassification.AcademicBeforeNews` | backend/app/services/zyte_manager.py:43-51 | the academic test comes first: "news.springer.com" goes to Scrapy Cloud |
| `SiteClassification.NewsHostUsesZyteApi` | backend/app/services/zyte_manager.py:47-51 | "www.nytimes.com" is not fetched directly |
| `SiteClassification.WebsiteKind` | backend/app/services/zyte_manager.py:641-691 | scientific exactly when a TLD fragment or publisher word is in the host or a scientific segment is in the path; news exactly when not scientific and a news word is in the host; standard exactly when none of the four tests matched; complex otherwise |
| `SiteClassification.WebsiteKindExtension` | backend/app/services/zyte_manager.py:647-688 | a host and path that contain shorter ones never move down the scientific, news, complex, standard chain |
| `SiteClassification.PublisherIsScientific` | backend/app/services/zyte_manager.py:39-44 | a host naming springer, sciencedirect or ieee is both sent to Scrapy Cloud and classified scientific |
| `HttpExtraction.FirstInGroup` | backend/app/services/zyte_manager.py:118-130 | the text taken from one selector's elements is longer than 200 characters |
| `HttpExtraction.SelectorText` | backend/app/services/zyte_manager.py:115-133 | the text taken by the selector stage is longer than 200 characters |
| `HttpExtraction.SelectorStage` | backend/app/services/zyte_manager.py:109-133 | the nested selector and element loops, with both breaks, yield the first qualifying element's cleaned text, or "" |
| `HttpExtraction.KeepParagraphs` | backend/app/services/zyte_manager.py:137-141 | the paragraph loop keeps exactly the paragraphs longer than 40 characters, in order |
| `HttpExtraction.ExtractContent` | backend/app/services/zyte_manager.py:109-155 | the content is the whitespace-collapsed text of the cascade: selectors, else paragraphs joined by spaces, else (also when shorter than 200 characters) the body |
| `HttpExtraction.ScrapeWithHttp` | backend/app/services/zyte_manager.py:87-165 | an exception gives the error dictionary with its message; a status other than 200 gives "HTTP error: " and the status; otherwise the title and the extracted content, with the error "" exactly when there is content and "Failed to extract content" otherwise |
| `HttpExtraction.SelectorTextNone` | backend/app/services/zyte_manager.py:115-133 | the selector stage finds nothing exactly when no element of any selector qualifies |
| `HttpExtraction.GroupNone` | backend/app/services/zyte_manager.py:118-130 | one selector yields nothing exactly when none of its elements qualifies |
| `HttpExtraction.GroupFirst` | backend/app/services/zyte_manager.py:118-130 | the text one selector yields belongs to its first qualifying element |
| `HttpExtraction.SelectorTextIsFirst` | backend/app/services/zyte_manager.py:115-133 | the selector stage's text belongs to the first qualifying element of the first selector that has one |
| `HttpExtraction.SelectorTextWins` | backend/app/services/zyte_manager.py:132-147 | a text found by the selectors is kept: the paragraph and body fallbacks never replace it |
| `HttpExtraction.ParagraphsUsed` | backend/app/services/zyte_manager.py:136-147 | with no selector text, the substantial paragraphs joined by spaces are used when they reach 200 characters or there is no body |
| `HttpExtraction.JoinNonEmpty` | backend/app/services/zyte_manager.py:144 | the joined paragraphs are at least as long as the first one |
| `HttpExtraction.BodyFallback` | backend/app/services/zyte_manager.py:146-152 | with no selector text and no paragraphs, or joined paragraphs shorter than 200 characters, the body text is used when there is a body |
| `HttpExtraction.ContentIsNormal` | backend/app/services/zyte_manager.py:155 | every whitespace character of the content is a single space, with none at either end and never two in a row |
| `ZyteRouting.Dispatch` | backend/app/services/zyte_manager.py:73-79 | direct HTTP runs the HTTP scrape, Zyte API and Scrapy Cloud their own strategies |
| `ZyteRouting.FallbackChain` | backend/app/services/zyte_manager.py:460-476 | the methods are tried in order; every method before the last one tried failed to qualify; the chain returns the first result with more than 200 characters of content, and tries every method when none qualifies |
| `ZyteRouting.ChainPicksFirst` | backend/app/services/zyte_manager.py:464-469 | the chain returns the first qualifying result |
| `ZyteRouting.ChainAllFail` | backend/app/services/zyte_manager.py:470-476 | when nothing qualifies, the chain returns "All methods failed: " and the message of the last method that raised, or "None" |
| `ZyteRouting.LastRaisedCons` | backend/app/services/zyte_manager.py:470-471 | the last error seen is the last raised message, carried forward from earlier ones |
| `ZyteRouting.ChainIgnoresLater` | backend/app/services/zyte_manager.py:464-469 | the methods after a qualifying one never matter |
| `ZyteRouting.ScientificChainOutcome` | backend/app/services/zyte_manager.py:713-733 | a scientific site gets the scientific scrape or, when configured, the Zyte API result, each only with more than 300 characters, and otherwise the plain HTTP scrape |
| `ZyteRouting.ScientificFirst` | backend/app/services/zyte_manager.py:716-719 | a scientific scrape with more than 300 characters is returned and neither Zyte API nor plain HTTP is consulted |
| `ZyteRouting.ZyteNeedsKey` | backend/app/services/zyte_manager.py:722 | without a configured key the Zyte API is never consulted |
| `ZyteRouting.PlaceholderKeyIsUnset` | backend/app/services/zyte_manager.py:722 | the empty key and the "ENTER_YOUR..." placeholder count as unset, a real key as set |
| `ZyteRouting.CacheHitNoStrategy` | backend/app/services/zyte_manager.py:63-67 | a cache hit is returned as stored, the store is unchanged, and no strategy is consulted |
| `ZyteRouting.CacheMissDispatches` | backend/app/services/zyte_manager.py:69-79 | on a miss the outcome is what the classified service's strategy returns |
| `ZyteRouting.OptimalCachesOnlyUseful` | backend/app/services/zyte_manager.py:81-85 | the store changes only to record a result with more than 200 characters, which then reads back; every other key reads as before |
| `ZyteRouting.ScientificNotCached` | backend/app/services/zyte_manager.py:713-733 | a scientific site never raises and never writes the cache |
| `ZyteRouting.ZyteServiceRouter.constructor` | backend/app/services/zyte_manager.py:18-25 | the router keeps the key and project id and owns a new cache object over the default cache directory, whose stores start with the entries already on disk |
| `ZyteRouting.ZyteServiceRouter.ScrapeWithOptimalService` | backend/app/services/zyte_manager.py:61-85 | the outcome and the new content store are those of `Optimal`; the search and metadata stores are unchanged |
| `ZyteRouting.ZyteServiceRouter.ScrapeUrlWithStrategy` | backend/app/services/zyte_manager.py:701-736 | cache first, then the scientific chain for scientific sites and the optimal service for the rest; only the content store can change |
| `ZyteRouting.ZyteServiceRouter.ScrapeScientific` | backend/app/services/zyte_manager.py:713-733 | the method computes `ScientificChain` |
| `ZyteRouting.ZyteServiceRouter.RunStrategies` | backend/app/services/worker_pool.py:59-69 | the outcomes and the new content store are `RunAll`: each scheduled URL in turn goes through `scrape_url_with_strategy` over the store the earlier tasks left; the search and metadata stores do not change |
| `ZyteRouting.RunAll` | backend/app/services/zyte_manager.py:701-740 | one outcome per scheduled URL |
| `ZyteRouting.RunAllAt` | backend/app/services/zyte_manager.py:701-740 | the outcome of the i-th task is `scrape_url_with_strategy` of the i-th scheduled URL, over the content store the first i tasks left |
| `ZyteRouting.BatchOutcomeOfUrl` | backend/app/services/zyte_manager.py:738-740 | the pool schedules one task per URL; task i scrapes a URL of the batch, and its outcome is that URL's `scrape_url_with_strategy` over the store the earlier tasks left |
| `ZyteRouting.BatchCoversUrls` | backend/app/services/zyte_manager.py:738-740 | every URL of the batch is scheduled as a task |
| `ZyteRouting.ZyteServiceRouter.ScrapeUrlsInParallel` | backend/app/services/zyte_manager.py:693-746 | the batch runs one `scrape_url_with_strategy` task per URL in the pool's schedule, and the content store becomes what they leave; the collected results, in completion order, are exactly the scrape outcomes that returned content: each is some task's outcome, and every such outcome is collected; the returned results are the collected ones with more than 200 characters; the search and metadata stores do not change |
| `ZyteRouting.BatchFilter` | backend/app/services/zyte_manager.py:743 | a result is returned exactly when it was collected and has more than 200 characters |
| `ScrapyJobs.JobStatus` | backend/app/services/zyte_manager.py:392-419 | "finished" only comes from a 200 listing whose first job's state is "finished"; an exception or a non-200 status gives "error" |
| `ScrapyJobs.IntervalBounds` | backend/app/services/zyte_manager.py:375-388 | every sleep lasts between 2 and 10 seconds |
| `ScrapyJobs.IntervalMonotone` | backend/app/services/zyte_manager.py:388 | the sleeps never get shorter |
| `ScrapyJobs.IntervalValues` | backend/app/services/zyte_manager.py:375-388 | the sleeps are 2, 3, 4.5, 6.75 and then 10 seconds |
| `ScrapyJobs.ElapsedGrows` | backend/app/services/zyte_manager.py:377-388 | every poll and its sleep move the clock on by at least 2 seconds |
| `ScrapyJobs.WaitForJob` | backend/app/services/zyte_manager.py:372-390 | each poll starts before the timeout; every poll but the last saw a state that does not stop the wait; the wait returns true exactly when the last poll saw "finished"; a wait that did not stop on a state ran out of time; fewer than timeout/2 + 1 polls happen |
| `ScrapyJobs.StorageJobId` | backend/app/services/zyte_manager.py:426 | the storage id contains a '/' and ends with the job id; a job id with a '/' is used as it is, any other gets the project id and a '/' in front |
| `ScrapyJobs.ParseLinesAppend` | backend/app/services/zyte_manager.py:444-450 | the items of consecutive blocks of lines are each block's items, in order |
| `ScrapyJobs.ParseLinesSnoc` | backend/app/services/zyte_manager.py:444-450 | one more line adds only its own item |
| `ScrapyJobs.ParseLinesLength` | backend/app/services/zyte_manager.py:444-450 | every line gives at most one item |
| `ScrapyJobs.ParseOneLine` | backend/app/services/zyte_manager.py:445-450 | a blank line and a line that is not JSON give no item; any other line gives its parsed value |
| `ScrapyJobs.BodyLines` | backend/app/services/zyte_manager.py:444 | the lines, joined by newlines again, give back the stripped body |
| `ScrapyJobs.GetJobItems` | backend/app/services/zyte_manager.py:421-458 | the request goes to the storage id; an exception or a non-200 status gives no items; a 200 response gives the items of its lines, in order |
| `ScrapyJobs.ParseItems` | backend/app/services/zyte_manager.py:443-452 | the loop over the lines computes `ParseLines` |
| `WorkerPool.DomainsOf` | backend/app/services/worker_pool.py:28-29 | one host per URL, in URL order |
| `WorkerPool.GroupBy` | backend/app/services/worker_pool.py:26-32 | the keys are the distinct hosts in order of first appearance; a host has a group exactly when it is one of them; each group holds that host's URLs in their original order |
| `WorkerPool.GroupedStep` | backend/app/services/worker_pool.py:28-32 | one iteration of the grouping loop, with or without creating the group, keeps the keys and groups right for the URLs seen so far |
| `WorkerPool.KeysStep` | backend/app/services/worker_pool.py:30-31 | a host is added to the keys only the first time it is seen |
| `WorkerPool.GroupStep` | backend/app/services/worker_pool.py:32 | a URL is appended to its own host's group and to no other |
| `WorkerPool.NoGroupYet` | backend/app/services/worker_pool.py:30-31 | a host not seen yet has no URLs so far |
| `WorkerPool.PriorityCount` | backend/app/services/worker_pool.py:40-45 | the priority key counts at most the four priority domains |
| `WorkerPool.PriorityPositive` | backend/app/services/worker_pool.py:45 | a host has a positive priority exactly when it contains one of the priority domains |
| `WorkerPool.SortedDomainsByPriority` | backend/app/services/worker_pool.py:43-47 | the hosts are ordered by priority count, highest first |
| `WorkerPool.SortedDomainsStable` | backend/app/services/worker_pool.py:43-47 | hosts with the same priority stay in order of first appearance, as Python's stable sort leaves them |
| `WorkerPool.DistinctOnce` | backend/app/services/worker_pool.py:27-32 | distinct hosts each occur once |
| `WorkerPool.FilterSplit` | backend/app/services/worker_pool.py:50-51 | adding one more host's group to the schedule adds exactly that host's URLs |
| `WorkerPool.ScheduleMultiset` | backend/app/services/worker_pool.py:50-57 | the scrape tasks created for a list of hosts, each once, are the URLs of those hosts |
| `WorkerPool.ScheduleIsPermutation` | backend/app/services/worker_pool.py:26-57 | the order of the scrape tasks is a permutation of the URLs: every URL gets exactly one task |
| `WorkerPool.Collected` | backend/app/services/worker_pool.py:60-64 | no more results than completed tasks |
| `WorkerPool.Collect` | backend/app/services/worker_pool.py:60-69 | results arrive in completion order; each has content and is a task's returned result; every task that returned content is in the results |
| `WorkerPool.CollectedMembers` | backend/app/services/worker_pool.py:60-67 | a raising task or an empty result is dropped, and every other result is kept |
| `WorkerPool.BuildSchedule` | backend/app/services/worker_pool.py:50-57 | the nested task loop creates the URLs host group by host group, in the sorted host order |
| `WorkerPool.OrderTasks` | backend/app/services/worker_pool.py:39-57 | the hosts are sorted by priority and the scrape tasks are created group by group, a permutation of the URLs |
| `WorkerPool.RunTasks` | backend/app/services/worker_pool.py:71-81 | each task's outcome is the scrape of its own URL |
| `WorkerPool.PermutedTasks` | backend/app/services/worker_pool.py:52-62 | running the scrape tasks in any permuted order gives the outcome of every URL and nothing else |
| `WorkerPool.ScraperWorkerPool.constructor` | backend/app/services/worker_pool.py:13-17 | the pool keeps its limits and starts with no host semaphores |
| `WorkerPool.ScraperWorkerPool.AddSemaphores` | backend/app/services/worker_pool.py:34-37 | every host gets a semaphore; existing ones are kept; new ones get the per-host limit |
| `WorkerPool.ScraperWorkerPool.Plan` | backend/app/services/worker_pool.py:26-57 | every URL's host gets a semaphore, existing ones kept; the hosts are sorted by priority; the order of the scrape tasks is the schedule, a permutation of the URLs |
| `WorkerPool.ScraperWorkerPool.ScrapeUrls` | backend/app/services/worker_pool.py:19-69 | every host of the batch gets a semaphore with the per-domain limit and existing semaphores are kept; at most one result per URL; every result has content and is the scrape of one of the URLs; every URL whose scrape returned content contributes its result |
| `Similarity.DetectPlagiarism` | backend/app/services/similarity.py:44-67 | no sources or a blank text give 0 %, no matches and the text itself; a timeout gives 50 %, the single "Analysis timed out" match at 0.8 and the warning banner before the text; otherwise the verdict of the check; the percentage always lies in [0, 100] |
| `Similarity.Threshold` | backend/app/services/similarity.py:119 | a source whose URL contains "wikipedia.org" is judged against 0.60, every other against 0.65 |
| `Similarity.ScoreSentences` | backend/app/services/similarity.py:136-147 | for one source, the matches are the text sentences whose best score beats the threshold, in sentence order, and the indices added are exactly theirs |
| `Similarity.ScoreSources` | backend/app/services/similarity.py:110-147 | over all sources, the matches are every (sentence, source) pair that beats its source's threshold, source by source, and the matched set is the sentences with at least one such pair |
| `Similarity.HitMeans` | backend/app/services/similarity.py:115-141 | a pair is a hit exactly when the source is not blank, has sentences, and the score strictly beats its threshold |
| `Similarity.MatchedMeans` | backend/app/services/similarity.py:147 | a sentence is counted as plagiarised exactly when some source beats its threshold on it |
| `Similarity.MatchesArePairs` | backend/app/services/similarity.py:142-146 | every match is the sentence, the source URL and the score of a hit pair, and every hit pair gives one |
| `Similarity.CountedOnce` | backend/app/services/similarity.py:147-150 | a sentence matched by several sources is counted once: the matched count is at most the number of matches and at most the number of sentences |
| `Similarity.Percentage` | backend/app/services/similarity.py:150 | the share of matched sentences lies in [0, 100], is 100 when all match and 0 when none do or there are no sentences |
| `Similarity.Snap` | backend/app/services/similarity.py:153-154 | a value above 95 becomes 100, so no verdict lies strictly between 95 and 100; values up to 95 are kept |
| `Similarity.FoundSpansMeans` | backend/app/services/similarity.py:160-166 | a span is collected exactly for a matched sentence that occurs in the text, from its first occurrence to its end |
| `Similarity.CollectSpans` | backend/app/services/similarity.py:160-166 | the loop over the sorted matched indices collects exactly those spans, in index order |
| `Similarity.Mark` | backend/app/services/similarity.py:173-174 | one highlight step grows the text by exactly the two markers |
| `Similarity.MarkSplit` | backend/app/services/similarity.py:173-174 | inserting the closing marker first and the opening one second puts the span's text between them and keeps both sides |
| `Similarity.ApplyHighlights` | backend/app/services/similarity.py:171-174 | the loop inserting the closing and then the opening marker, span by span, computes `Highlight(text, spans)` |
| `Similarity.SortKeepsBounds` | backend/app/services/similarity.py:169 | sorting the spans keeps each within the text |
| `Similarity.OrderedSpans` | backend/app/services/similarity.py:160-169 | the spans, sorted in reverse, all lie within the text, so every slice of the highlight loop is in range |
| `Similarity.PerformCheck` | backend/app/services/similarity.py:69-180 | the method computes the check's verdict `CheckVerdict` |
| `Similarity.VerbatimShortCircuit` | backend/app/services/similarity.py:72-89 | when the first source whose stripped content is longer than 100 characters and contains or is contained in the text is source j, the verdict is 100 %, the single match of the first 200 characters plus "..." with score 1.0 from source j, and the whole text highlighted |
| `Similarity.PercentageIsShare` | backend/app/services/similarity.py:93-154 | at most 500 sentences are considered; the percentage is the snapped share of matched sentences and lies in [0, 100] |
| `Similarity.CheckPercentageBounds` | backend/app/services/similarity.py:69-180 | every verdict of the check lies in [0, 100] and never strictly between 95 and 100 |
| `Similarity.NoSentences` | backend/app/services/similarity.py:150 | with no verbatim source and no text sentences the verdict is 0 %, no matches and the unmodified text |
| `Similarity.EraseSegments` | backend/app/services/similarity.py:171-174 | reading the highlighted text and dropping the markers gives back the original text, for spans in bounds and pairwise separated |
| `Similarity.RenderSegments` | backend/app/services/similarity.py:171-174 | the highlight loop puts each separated span's text between an opening and a closing marker and changes nothing else |
| `Similarity.SortedSeparated` | backend/app/services/similarity.py:169 | spans that do not overlap, sorted in reverse by start, are ordered from the end of the text to its start, so each insertion leaves the earlier positions valid |
| `Similarity.SortApart` | backend/app/services/similarity.py:169 | sorting keeps the spans pairwise non-overlapping |
| `Similarity.HighlightKeepsText` | backend/app/services/similarity.py:157-174 | when the collected spans do not overlap, the highlighted text is the original with markers around exactly the matched spans |
| `Similarity.SplitTextIntoChunks` | backend/app/services/similarity.py:182-191 | one chunk per 15 words, rounded up; chunk k is the words from 15k to 15k+20, joined by single spaces |
| `Similarity.ChunkCount` | backend/app/services/similarity.py:187 | the number of range steps is the word count divided by 15, rounded up |
| `Similarity.WindowSize` | backend/app/services/similarity.py:188 | every chunk has 1 to 20 words |
| `Similarity.WindowOverlap` | backend/app/services/similarity.py:187-188 | consecutive full chunks share their last and first five words |
| `Similarity.WindowsCover` | backend/app/services/similarity.py:187-188 | every word of the text lies in some chunk |
| `Similarity.SplitAtTerminators` | backend/app/services/similarity.py:213 | the split has at least one piece, and no piece holds '.', '!' or '?' |
| `Similarity.SplitDropsOnlyTerminators` | backend/app/services/similarity.py:213 | the pieces glued back give the text without its terminators, and there is one piece more than terminators |
| `Similarity.LastResortHasNoTerminator` | backend/app/services/similarity.py:213-214 | no last-resort sentence contains a terminator |
| `Similarity.NoTerminatorOneSentence` | backend/app/services/similarity.py:213-214 | a non-blank text without terminators is one sentence: the text stripped |
| `Similarity.Cleaned` | backend/app/services/similarity.py:214 | the cleaned pieces are no more than the pieces, each non-empty and with no space at either end |
| `Similarity.SplitIntoSentences` | backend/app/services/similarity.py:193-214 | when NLTK fails, every sentence returned is non-empty, whether it came from the regex split (two pieces or more) or the last-resort split |
| `SpiderQueue.StartedAsWritten` | backend/app/services/spider_queue.py:20-25 | `start()` as written: a stopped queue gets the flag set and a waiting worker, with the queue, stop signals included, and the records unchanged; a running queue is left alone |
| `SpiderQueue.Started` | backend/app/services/spider_queue.py:20-25 | the corrected `start()` of the spider_queue.py:20-45 finding below, which the source does not do: starting a stopped queue sets the flag and leaves a worker waiting on a queue that holds no stop signal |
| `SpiderQueue.StartVersionsDiffer` | backend/app/services/spider_queue.py:20-45 | the two versions of `start()` differ only in the queue: as written a leftover stop signal stays for the new worker, corrected it is dropped and every queued task is kept |
| `SpiderQueue.Lookup` | backend/app/services/spider_queue.py:93-95 | None exactly for an id without a record, else its record |
| `SpiderQueue.SpiderQueue.constructor` | backend/app/services/spider_queue.py:12-18 | nothing queued, no results, not running, no worker |
| `SpiderQueue.SpiderQueue.Start` | backend/app/services/spider_queue.py:20-25 | the corrected `start()` of the spider_queue.py:20-45 finding below: the fields become `Started` of the old state |
| `SpiderQueue.SpiderQueue.Stop` | backend/app/services/spider_queue.py:27-34 | the fields become `Stopped` of the old state |
| `SpiderQueue.SpiderQueue.AddTask` | backend/app/services/spider_queue.py:87-91 | a new spider task is appended to the queue under the given id, and that id is returned |
| `SpiderQueue.SpiderQueue.TakeNext` | backend/app/services/spider_queue.py:38-60 | the fields become `Taken` of the old state |
| `SpiderQueue.SpiderQueue.FinishTask` | backend/app/services/spider_queue.py:62-80 | the fields become `Finished` of the old state |
| `SpiderQueue.SpiderQueue.GetResult` | backend/app/services/spider_queue.py:93-95 | the result is `Lookup` of the records |
| `SpiderQueue.SpiderQueue.CleanupOldResults` | backend/app/services/spider_queue.py:97-109 | the records become exactly the ones `Cleaned` keeps; the queue, flag and worker are unchanged |
| `SpiderQueue.StartIdempotent` | backend/app/services/spider_queue.py:20-25 | `start()` does nothing while running, and starting twice is starting once |
| `SpiderQueue.StopEffect` | backend/app/services/spider_queue.py:27-31 | `stop()` does nothing while stopped; otherwise it clears the flag and enqueues one stop signal, leaving the records and the worker alone |
| `SpiderQueue.FifoOrder` | backend/app/services/spider_queue.py:39-91 | the worker takes tasks in the order they were added: adding at the back never changes what is taken from a non-empty queue |
| `SpiderQueue.TakeRecordsRunning` | backend/app/services/spider_queue.py:41-60 | a waiting worker takes the head task, records it as running since now, changes no other record and drops the head from the queue |
| `SpiderQueue.FinishRecordsOutcome` | backend/app/services/spider_queue.py:62-80 | the record of the finished spider task becomes completed with the result or failed with the error, at now; no other record changes; the worker waits again, or ends when the flag is clear |
| `SpiderQueue.AddRecordsNothing` | backend/app/services/spider_queue.py:87-91 | adding a task writes no record |
| `SpiderQueue.CleanedExactly` | backend/app/services/spider_queue.py:103-109 | a record is kept exactly when it is not a completed or failed record that ended more than the limit ago; kept records are unchanged |
| `SpiderQueue.CleanupKeepsRunning` | backend/app/services/spider_queue.py:104 | a running record is never removed |
| `SpiderQueue.CleanupIdempotent` | backend/app/services/spider_queue.py:97-109 | cleaning twice at the same time is cleaning once |
| `SpiderQueue.InitialHealthy` | backend/app/services/spider_queue.py:12-18 | a new queue is healthy: whenever running, a worker is alive and no stop signal is queued |
| `SpiderQueue.StepsKeepHealthy` | backend/app/services/spider_queue.py:20-91 | with the corrected `start()`, every operation and worker step keeps the queue healthy |
| `SpiderQueue.StalledStaysStalled` | backend/app/services/spider_queue.py:20-45 | a queue that is running with no worker never recovers: starting, taking and finishing change nothing, and added tasks wait forever |
| `SpiderQueue.RestartAsWrittenStalls` | backend/app/services/spider_queue.py:20-45 | with `start()` as written, stopping while a task runs and starting again leaves the stop signal ahead of the next task: the new worker ends on it and the next task is never run |
| `SpiderQueue.RestartIntendedRuns` | backend/app/services/spider_queue.py:20-45 | with the corrected `start()`, the same sequence runs the next task and stays healthy |
| `SpiderQueue.RestartFirstHalf` | backend/app/services/spider_queue.py:27-80 | after the first spider task is taken, the queue stopped and that spider task finished, one stop signal is left in the queue and the worker has ended |
| `SpiderQueue.RestartSecondHalf` | backend/app/services/spider_queue.py:20-60 | from that state the corrected restart drops the signal, and the next task added is taken and recorded as running |
| `Plagiarism.VerdictValue` | backend/app/services/similarity.py:176-180 | the verdict dictionary has exactly the percentage, matches and highlighted-text keys, with one entry per match |
| `Plagiarism.SourcesValue` | backend/app/api/endpoints/plagiarism.py:172 | the stored sources list has one entry per source |
| `Plagiarism.FromUpload` | backend/app/api/endpoints/plagiarism.py:43-66 | an upload yields a non-empty text, or a 400 error |
| `Plagiarism.CheckFields` | backend/app/api/endpoints/plagiarism.py:74-79 | the extra fields of the new job never override its status |
| `Plagiarism.CheckPlagiarism` | backend/app/api/endpoints/plagiarism.py:25-84 | an admitted text creates the job "processing" with the original content and its length and answers with the job id; any rejection is answered as it is and creates nothing |
| `Plagiarism.AdmitMeans` | backend/app/api/endpoints/plagiarism.py:35-71 | no content and no file give 400 "No content provided"; an admitted text is non-empty, passes validation and is the form content when given, else the decoded upload; valid form content is always admitted |
| `Plagiarism.AdmittedJob` | backend/app/api/endpoints/plagiarism.py:74-79 | the new job is "processing" at progress 0 with `original_content` and `content_length`, and has no `content` field |
| `Plagiarism.CheckStatus` | backend/app/api/endpoints/plagiarism.py:86-99 | an unknown job gives 404; a job without a status raises; otherwise the status, the progress (0 if absent), and a message that can only be set for a failed job, where it is its error |
| `Plagiarism.StartPlagiarismCheck` | backend/app/api/endpoints/plagiarism.py:101-127 | the answer is the gate's; an analyzed or failed job is reset to "processing" at progress 0 and nothing else changes; any other job is left alone |
| `Plagiarism.StartGating` | backend/app/api/endpoints/plagiarism.py:110-127 | an analyzed or failed job restarts at 0; a processing job reports its progress; a completed job reports 100; any other status is a 400 "Invalid job status" |
| `Plagiarism.GetResults` | backend/app/api/endpoints/plagiarism.py:130-145 | an unknown job gives 404; a result is served only for a completed job and is its stored result; a failed job gives 400 "Job failed: " and its error; any other status gives 400 "Job not yet completed" |
| `Plagiarism.CompletedResultsServed` | backend/app/api/endpoints/plagiarism.py:139-145 | after `set_job_completed` the results endpoint serves exactly the stored result |
| `Plagiarism.StartSearch` | backend/app/api/endpoints/plagiarism.py:198-202 | the first two updates of the background check set progress 10, then 30 with the search message; an unknown job is left alone |
| `Plagiarism.ProcessPlagiarismCheck` | backend/app/api/endpoints/plagiarism.py:194-226 | an unknown job is left alone; otherwise only that job changes, to `Processed` of it |
| `Plagiarism.AnalyzeSources` | backend/app/api/endpoints/plagiarism.py:211-220 | after the search, the job moves to progress 60 and then to the check's outcome; an unknown job is left alone |
| `Plagiarism.ProcessedOutcome` | backend/app/api/endpoints/plagiarism.py:194-226 | a failing search leaves the job failed at progress 30 with its error; a failing check leaves it failed at 60; otherwise it is completed at 100 with the verdict; the original content is kept throughout |
| `Plagiarism.FailedEnds` | backend/app/services/job_store.py:66-74 | a failed job has status "failed" and the error, and keeps its progress, content and sources |
| `Plagiarism.CompletedEnds` | backend/app/services/job_store.py:54-63 | a completed job has status "completed", the result and progress 100, and keeps its content and sources |
| `Plagiarism.RestartAsWrittenFails` | backend/app/api/endpoints/plagiarism.py:147-192 | a job created by `check_plagiarism` and restarted fails with `KeyError('content')` at progress 10, whatever the search and the check do |
| `Plagiarism.RestartPlagiarismCheck` | backend/app/api/endpoints/plagiarism.py:147-192 | an unknown job is left alone; otherwise only that job changes, to the restart that reads `original_content` |
| `Plagiarism.SearchThenCheck` | backend/app/api/endpoints/plagiarism.py:161-186 | the job moves to progress 30 and then to the outcome of the search and the check |
| `Plagiarism.StoreVerdict` | backend/app/api/endpoints/plagiarism.py:172-186 | the sources are stored at progress 60 and then the check's outcome, with the job's themes copied into the verdict |
| `Plagiarism.RestartedOutcome` | backend/app/api/endpoints/plagiarism.py:150-158 | a missing content key fails the restart with the quoted key at progress 10; otherwise the restart searches from that field's value after setting progress 10 |
| `Plagiarism.SearchedOutcome` | backend/app/api/endpoints/plagiarism.py:161-192 | a failing search fails the job at progress 30; a successful one stores the sources; a failing check then fails it at 60; otherwise it completes at 100 with the verdict carrying the job's themes |
| `Plagiarism.UpdatedThemes` | backend/app/services/job_store.py:37-38 | updates that do not name themes keep the job's themes |
| `Plagiarism.ThemesUnchanged` | backend/app/api/endpoints/plagiarism.py:182-183 | the verdict's themes depend only on the job's themes |
| `Plagiarism.RestartIntendedCompletes` | backend/app/api/endpoints/plagiarism.py:147-192 | reading `original_content` and with `MAX_SOURCES` declared, a restarted job whose search (with that limit) and check succeed completes at 100 with the verdict and the sources stored |
| `Plagiarism.RestartSettingsFails` | backend/app/api/endpoints/plagiarism.py:158-164 | reading `original_content`, a restarted job still fails at progress 30 with the `AttributeError` of the undeclared `settings.MAX_SOURCES`, whatever the search and check would do |
| `Plagiarism.ProcessAsWrittenFails` | backend/app/api/endpoints/plagiarism.py:199-203 | as written, every job created by `check_plagiarism` ends failed at progress 30 with the `AttributeError` of `settings.MAX_SOURCES`, keeping its text, whatever the search and check would do |
| `Plagiarism.ProcessIntendedCompletes` | backend/app/api/endpoints/plagiarism.py:194-226 | with `MAX_SOURCES` declared, a job created by `check_plagiarism` whose search (with that limit) and check succeed completes at 100 with the verdict, keeping its text |
| `Keywords.RunPrefix` | backend/app/services/scraping.py:101 | the longest prefix made of word characters: every character is one, and the next is not |
| `Keywords.Runs` | backend/app/services/scraping.py:101 | the runs of word characters are never empty |
| `Keywords.LongWords` | backend/app/services/scraping.py:101 | every match of `\b\w{4,}\b` has at least four characters |
| `Keywords.LengthFactor` | backend/app/services/scraping.py:151 | the length discount lies in (0, 1] and is 1 up to 5000 characters |
| `Keywords.Relevance` | backend/app/services/scraping.py:133-153 | the relevance is 0 exactly when the original has no keyword or shares none with the source, and otherwise lies in (0, 100] |
| `Keywords.KeywordShape` | backend/app/services/scraping.py:136 | every keyword is a run of at least four word characters |
| `Keywords.RunsAreWords` | backend/app/services/scraping.py:101 | every run consists of word characters |
| `Keywords.SelfRelevance` | backend/app/services/scraping.py:145-153 | a text with keywords scores 100 against itself, times the length discount |
| `Keywords.RelevanceIgnoresCase` | backend/app/services/scraping.py:136 | the relevance ignores the case of the original |
| `Keywords.DisjointIsIrrelevant` | backend/app/services/scraping.py:145-147 | a source sharing no keyword scores 0, whatever its length |
| `SearchPhrases.Candidates` | backend/app/services/scraping.py:92 | every candidate sentence has more than 20 characters once stripped |
| `SearchPhrases.Score` | backend/app/services/scraping.py:101-113 | a sentence is scored exactly when it has at least three words of four or more characters |
| `SearchPhrases.ScoredSentences` | backend/app/services/scraping.py:98-115 | every scored entry is a candidate with its own score |
| `SearchPhrases.ScoreSentences` | backend/app/services/scraping.py:98-115 | the scoring loop computes `ScoredSentences` |
| `SearchPhrases.TopUpFrom` | backend/app/services/scraping.py:124-129 | the top-up loop computes `TopUp` |
| `SearchPhrases.ExtractSearchPhrases` | backend/app/services/scraping.py:80-131 | the method computes `Phrases` |
| `SearchPhrases.TopUpShape` | backend/app/services/scraping.py:124-129 | the top-up keeps the selection as its prefix and only appends candidates not already present; it stops at n, and adds something whenever a candidate is missing |
| `SearchPhrases.PicksScored` | backend/app/services/scraping.py:104-121 | every pick is a candidate with at least three long words |
| `SearchPhrases.PicksRanked` | backend/app/services/scraping.py:118-121 | every pick has a score, and no pick scores below a later one |
| `SearchPhrases.SelectionShape` | backend/app/services/scraping.py:118-129 | the selection starts with the picks, holds only candidates, adds no duplicate, has at most n entries when picks are short, and at least one when n is positive |
| `SearchPhrases.PicksAtMost` | backend/app/services/scraping.py:121 | at most n picks |
| `SearchPhrases.PhrasesFallback` | backend/app/services/scraping.py:94-95 | with no candidate sentence the only phrase is the first 100 characters of the text |
| `SearchPhrases.PhrasesAreCandidates` | backend/app/services/scraping.py:118-131 | with candidates, every phrase is a candidate sentence |
| `SearchPhrases.PhrasesStartWithPicks` | backend/app/services/scraping.py:118-131 | the phrases start with the picks and add no duplicate after them |
| `SearchPhrases.PhrasesBound` | backend/app/services/scraping.py:80-131 | for a positive n there are between 1 and n phrases |
| `WebSearch.AtLeastOne` | backend/app/services/scraping.py:273-277 | a loop that appends before testing `len >= max` collects at least one item, and exactly `max` when that is positive |
| `WebSearch.CollectedCut` | backend/app/services/scraping.py:273-277 | once the loop holds the cap, what it collected is the first cap kept items |
| `WebSearch.CollectedAll` | backend/app/services/scraping.py:257-277 | a loop that never reaches the cap collects every kept item |
| `WebSearch.CollectStep` | backend/app/services/scraping.py:257-273 | one iteration appends the item exactly when the filters keep it |
| `WebSearch.CollectUpTo` | backend/app/services/scraping.py:256-277 | the loop with its early break collects the first kept items, at most `AtLeastOne(max)` of them, in order |
| `WebSearch.SearchRelevantContent` | backend/app/services/scraping.py:233-291 | the answer is `Relevant` of what `search_web` returned for twice the count |
| `WebSearch.RelevantKept` | backend/app/services/scraping.py:257-273 | every answer is a search hit that is not a non-content page, not a document and not on a social-media host |
| `WebSearch.RelevantBound` | backend/app/services/scraping.py:276-289 | at most `max_results` answers, and none when it is not positive |
| `WebSearch.RelevantSorted` | backend/app/services/scraping.py:280-287 | academic and `.edu` hits come first, then encyclopedias, then the rest |
| `WebSearch.RelevantFirstEligible` | backend/app/services/scraping.py:256-289 | the answers are, up to order, exactly the first `max_results` hits that pass the filters |
| `WebSearch.RelevantStable` | backend/app/services/scraping.py:280-287 | hits of the same priority keep their search order |
| `WebSearch.DirectDdgSearch` | backend/app/services/scraping.py:597-644 | the answer is the rows of the fetched page, or none when the fetch failed |
| `WebSearch.RedirectUnchanged` | backend/app/services/scraping.py:619-622 | a link without `/redirect/`, or without `uddg=`, is kept as it is |
| `WebSearch.RedirectTarget` | backend/app/services/scraping.py:619-622 | a redirect link becomes what follows its first `uddg=`, up to the next one, and holds no `uddg=` |
| `WebSearch.DdgRows` | backend/app/services/scraping.py:612-637 | one row per result with a link, in page order, no more than `AtLeastOne(max)` and exactly that many when there are enough |
| `WebSearch.DdgUrlCarriesQuery` | backend/app/services/scraping.py:602 | the search page's query parameter decodes back to the query |
| `WebSearch.Fallback` | backend/app/services/scraping.py:463-502 | the fallback search never returns an empty list |
| `WebSearch.FallbackSearch` | backend/app/services/scraping.py:463-502 | the method computes `Fallback` with Google, Bing and DuckDuckGo in that order |
| `WebSearch.FallbackFirstEngine` | backend/app/services/scraping.py:488-495 | without crawler results, the first engine that returns a non-empty list decides the answer |
| `WebSearch.FallbackCrawled` | backend/app/services/scraping.py:466-482 | crawler results are returned one row each, with their URL and title |
| `WebSearch.FallbackWikipedia` | backend/app/services/scraping.py:497-502 | when the crawler and every engine give nothing, the one answer is the Wikipedia page of the query, whose path segment decodes back to the query and holds only URL-safe characters |
| `WebSearch.FallbackToDdg` | backend/app/services/scraping.py:489-495 | when Google and Bing give nothing, the DuckDuckGo rows are the answer |
| `SourceFinder.Found` | backend/app/services/scraping.py:313-321 | the URLs taken from one phrase's search are never empty strings |
| `SourceFinder.GatherUrls` | backend/app/services/scraping.py:310-326 | the phrase loop with its early break computes `Gathered` |
| `SourceFinder.DedupUrls` | backend/app/services/scraping.py:328-334 | the `seen_urls` loop keeps each URL the first time it appears, in order |
| `SourceFinder.FormatSources` | backend/app/services/scraping.py:356-368 | one source row per scraped result with more than 200 characters, in result order, with the relevance to the text |
| `SourceFinder.FindAndScrapeSources` | backend/app/services/scraping.py:298-375 | the method computes `FindAndScrape` |
| `SourceFinder.PhrasesNeverEmpty` | backend/app/services/scraping.py:303-305 | there are always one or two search phrases, so the early return for none is never taken |
| `SourceFinder.GatherStops` | backend/app/services/scraping.py:310-326 | the search stops after the first phrase that brings the total to the cap; the URLs are those of the phrases searched, in order; it searches every phrase only while below the cap |
| `SourceFinder.ScrapeListShape` | backend/app/services/scraping.py:328-352 | the URLs scraped are distinct, non-empty, a prefix of the de-duplicated list, and at most three times `max_sources` |
| `SourceFinder.ToScrapeShape` | backend/app/services/scraping.py:329-352 | cutting the de-duplicated list keeps it distinct, a prefix, within the cap, and free of a value missing from the input |
| `SourceFinder.GatheredNonEmpty` | backend/app/services/scraping.py:321-322 | no empty URL is ever gathered |
| `SourceFinder.RankedOrder` | backend/app/services/scraping.py:370-372 | at most `max_sources` sources, most relevant first |
| `SourceFinder.RankedRows` | backend/app/services/scraping.py:357-372 | every source is a scraped result with more than 200 characters, with its URL, content and title, and a relevance in [0, 100] |
| `SourceFinder.RankedNothingUsable` | backend/app/services/scraping.py:358-359 | when no result has more than 200 characters there are no sources |
| `Quoting.QuotePlusRoundTrip` | backend/app/services/scraping.py:602 | the `quote_plus` query put into a search URL decodes back to the query, so no query is lost or confused with another |
| `Quoting.QuotePlusKeepsUnreserved` | backend/app/services/scraping.py:499 | a query made only of letters, digits and `_.-~` appears in the URL unchanged |
| `Urls.PiecesRecombine` | backend/app/services/zyte_manager.py:643-644 | the parts `urlparse` splits a URL into put back together give the cleaned URL, so `netloc` and `path` are pieces of it |
| `Lists.DedupFirstSeenOrder` | backend/app/services/scraping.py:329-334 | de-duplicated URLs stay in the order of their first appearance |
| `Lists.SortDescSorted` | backend/app/services/scraping.py:371 | the descending sort by relevance yields a list ordered by relevance |
| `Lists.SortDescStable` | backend/app/services/scraping.py:118 | the descending sort is stable: items with equal keys keep their original order |
| `Strings.NormalizeIsNormal` | backend/app/services/zyte_manager.py:155 | `re.sub(r'\s+', ' ', s).strip()` leaves no whitespace at either end, none but single spaces, and no two in a row |
| `Strings.SplitOnJoin` | backend/app/services/zyte_manager.py:444 | splitting on a separator loses nothing: joining the pieces gives back the text |

## Left out

- Network I/O is not modelled: aiohttp sessions, the Zyte extract API, the Scrapy Cloud run/list/items endpoints, Google CSE, the direct Google/Bing/DuckDuckGo fetches, the Playwright scraper and `crawler.py`. Each is an oracle parameter giving the response or the exception.
- BeautifulSoup selection and `decompose` are abstracted: the extraction cascade works over lists of candidate element texts (`Element.cleanText`). `_clean_content` and its boilerplate regexes are used only by the Playwright scraper, which is an oracle.
- The SentenceTransformer encoding, `np.dot` and the float threshold are replaced by an abstract `score(i, j)` and a threshold. `sent_tokenize` and `split_into_sentences` are oracles; only the last-resort split on terminators is modelled.
- Concurrency is not modelled: semaphores, `as_completed`, random jitter sleeps, and `asyncio.wait_for` (a `timedOut` flag). Batch tasks run one after another in schedule order, each seeing the content store the earlier ones left, while in the source concurrent tasks may read the cache before an earlier task writes it. Their results are collected in the completion order given as a parameter. The spider worker coroutine is modelled as explicit `TakeNext`/`FinishTask` steps.
- md5 cache keys are modelled as the text itself, an injective key. Expiry is modelled as time compared with the TTL; diskcache internals are not modelled.
- File-upload decoding and `ContentValidator` are oracles: the decoded text or the error message, and the validator's verdict.
- Python's `\w` (`Keywords.WordChar`), `lower()` (`Strings.LowerChar`) and `re.I` are modelled for ASCII only. Whitespace follows Python's Unicode set (`Strings.IsSpace`), which `\s`, `str.split()` and `str.strip()` all use.
- `json.loads` is an oracle returning `None` on a decoding error.
- `uuid.uuid4()` is an `id` argument assumed fresh, and `time.time()` is a `now` argument, one `now` per call. `create_job` reads the clock twice (job_store.py:18-19), so its `created_at` and `updated_at` can differ by microseconds, while `JobStore.Fresh` gives both the same `now`.
- Similarity.Percentage: the percentage is a `real`, not a float (similarity.py:150). Only its last digits can differ, and the `> 95` snap is not affected.
- `settings.MAX_SOURCES` is missing from `config.py`. In `SourceFinder` the limit is the `maxSources` parameter. In `Plagiarism` it is `DeclaredMaxSources` (`None`), and `SearchFor` turns it into the search step (see "## Findings").
- Plagiarism.ProcessPlagiarismCheck: as written, reading `settings.MAX_SOURCES` (plagiarism.py:203) raises `AttributeError` inside the `try`, after the progress-30 update. Every `/check` job therefore ends "failed" at progress 30 with "'Settings' object has no attribute 'MAX_SOURCES'" before any search runs. The method takes the search step as its `search` parameter. `ProcessAsWrittenFails` proves this ending for `SearchFor(DeclaredMaxSources, …)`, and `ProcessIntendedCompletes` proves the run with the setting declared.
- Plagiarism.RestartPlagiarismCheck: even with the text read from `original_content`, reading `settings.MAX_SOURCES` (plagiarism.py:164) fails the restart the same way at progress 30. The method takes the search step as its `search` parameter. `RestartSettingsFails` proves this ending, and `RestartIntendedCompletes` proves the run with the setting declared.
- WebSearch.SearchRelevantContent: `Settings` in `config.py` ignores unknown fields and defines no `ZYTE_PROJECT_ID`, `GOOGLE_API_KEY`, `GOOGLE_CSE_ID` or `DEBUG_SEARCH`. As written, `search_relevant_content` raises `AttributeError` building its router (scraping.py:237-240, before its `try`), as do `get_zyte_client` (660-663) and `search_web` (403). The model treats these settings as present: the router and `search_web` are inside the `searchWeb` parameter, which returns results.
- SourceFinder.FindAndScrapeSources: for the same reason, `find_and_scrape_sources_optimized` raises `AttributeError` on `settings.ZYTE_PROJECT_ID` (scraping.py:343-346). The model treats the setting as present: the router is inside the `scrapeAll` parameter.
- The `diskcache` directories persist and are shared by every cache over the same directory; the model passes what they hold to the constructor. Writes by another process during a run, file locking and eviction are not modelled.
- `scrape_urls_in_parallel` is defined at module level but called as a router method; the model treats it as a router method. Inside `SourceFinder` the batch scrape is the oracle `scrapeAll`.
- `router.close()` does not exist on the router; the model treats it as a no-op.
- `analyze.py` keeps its jobs table separate from `job_store.py`; the model keeps the two tables separate.
- `search_relevant_content`, which `analyze.py` calls with the themes list, is the oracle `search` there.
- The Zyte API, Scrapy Cloud and scientific-HTTP strategies are oracles from URL to outcome.
- The chunk sizes of `split_text_into_chunks` are fixed at their defaults of 20 words with an overlap of 5. The chunk list is modelled, but the verdict does not use it, just as the source's does not.
- `get_session` and the aiohttp session it manages are not modelled.
- JobStore.CreateJob: requires that the extra fields do not include `status`, because Python rejects a repeated keyword argument there.
- The DuckDuckGo redirect target is kept percent-encoded as it appears in the link. The source does not decode it either.
- reports.py, test.py, the Scrapy spiders, main.py, the Azure function, config.py, schema.py and security.py are not part of this model: they are framework glue, rendering or debug code.

## Findings

| source | as written | input that shows it | evidently intended | confidence | as-written member | corrected member |
|---|---|---|---|---|---|---|
| backend/app/api/endpoints/plagiarism.py:158 | `job["content"]` is read, but `check_plagiarism` creates jobs with the key `original_content` (line 77) | any job restarted through `start_plagiarism_check`: the background task raises `KeyError('content')` and the job ends "failed" at progress 10 | read `job["original_content"]` and run the search and the check | not executed | `Plagiarism.RestartAsWrittenFails` | `Plagiarism.RestartIntendedCompletes` |
| backend/app/services/spider_queue.py:20-45 | `stop()` clears the flag and enqueues a `None` sentinel, which stays queued if the worker is busy; a later `start()` sets the flag and starts a new worker, which takes the stale `None` and exits | `start()`, `add_task(f)` with `f` still running, `stop()`, `start()`, `add_task(g)`: `g` is never run although `_running` is true | a restarted queue runs every task added after the restart | not executed | `SpiderQueue.RestartAsWrittenStalls` | `SpiderQueue.RestartIntendedRuns` |
| backend/app/api/endpoints/plagiarism.py:203 | `process_plagiarism_check` passes `settings.MAX_SOURCES`, but `Settings` declares no such field and ignores extra ones, so reading it raises `AttributeError` | any request to `check_plagiarism`: the background task ends "failed" at progress 30 with "'Settings' object has no attribute 'MAX_SOURCES'" and never searches | declare `MAX_SOURCES` in `Settings`, so the search runs with that limit | not executed | `Plagiarism.ProcessAsWrittenFails` | `Plagiarism.ProcessIntendedCompletes` |
| backend/app/api/endpoints/plagiarism.py:164 | the restart passes `settings.MAX_SOURCES` too, so even with the `original_content` key it raises `AttributeError` | any restart through `start_plagiarism_check` once the key is read from `original_content`: the job ends "failed" at progress 30 | declare `MAX_SOURCES` and read `original_content`, so the restart searches and checks | not executed | `Plagiarism.RestartSettingsFails` | `Plagiarism.RestartIntendedCompletes` |
