/**
 * The plagiarism endpoints of `plagiarism.py` over the job store:
 * admission of a check request, the status, restart and result
 * handlers, and the two background pipelines with their progress steps.
 *
 * The source search and the similarity check are outcome parameters:
 * `search` is the search step, `settings.MAX_SOURCES` read first
 * (`SearchFor`) and then what `find_and_scrape_sources` (or its optimized
 * variant) returned or raised; `check(content, sources)` is what
 * `perform_plagiarism_check` returned or raised.
 */
module Plagiarism {
  import opened Wrappers
  import opened Json
  import opened JobStore
  import Similarity
  import Lists

  /** A handler's answer: its value, an `HTTPException`, or the `KeyError` of a missing field. */
  datatype Answer<+T> = Ok(value: T) | HttpError(code: int, detail: string) | MissingKey(key: string)

  /** A `StatusResponse`. */
  datatype StatusReply = StatusReply(status: Value, progress: Value, message: Value)

  // ----- The JSON the pipelines store -----

  function MatchValue(m: Similarity.Match): Value {
    Obj(map["text_snippet" := Str(m.snippet), "source_url" := Str(m.sourceUrl),
            "similarity_score" := Float(m.score)])
  }

  /** The dictionary `perform_plagiarism_check` returns. */
  function VerdictValue(v: Similarity.Verdict): (r: Value)
    ensures r.Obj? && r.fields.Keys == {"plagiarism_percentage", "matches", "full_text_with_highlights"}
    ensures r.fields["matches"].Arr? && |r.fields["matches"].items| == |v.matches|
  {
    Obj(map["plagiarism_percentage" := Float(v.percentage),
            "matches" := Arr(seq(|v.matches|, k requires 0 <= k < |v.matches| => MatchValue(v.matches[k]))),
            "full_text_with_highlights" := Str(v.highlighted)])
  }

  function SourceValue(s: Similarity.Source): Value {
    Obj(map["url" := Str(s.url), "content" := Str(s.content)])
  }

  function SourcesValue(sources: seq<Similarity.Source>): (r: Value)
    ensures r.Arr? && |r.items| == |sources|
  {
    Arr(seq(|sources|, k requires 0 <= k < |sources| => SourceValue(sources[k])))
  }

  // ----- check_plagiarism -----

  /** A form field Python counts as given: present and non-empty. */
  predicate Given(content: Option<string>) {
    content.Some? && content.value != ""
  }

  /**
   * The text of an uploaded file: `upload` is the decoded text, or the
   * message of what went wrong reading, validating or decoding it.
   */
  function FromUpload(upload: Attempt<string>): (r: Answer<string>)
    ensures r.Ok? ==> r.value != ""
    ensures !r.Ok? ==> r.HttpError? && r.code == 400
  {
    match upload
    case Raised(message) => HttpError(400, "Error processing file: " + message)
    case Returned(text) =>
      if text == "" then HttpError(400, "Error processing file: 400: Could not decode file content")
      else Ok(text)
  }

  /**
   * The text a check request is admitted with, or its rejection;
   * `validate(text)` is the message of `ContentValidator.validate_text`
   * when it refuses the text.
   */
  function Admit(content: Option<string>, file: Option<Attempt<string>>,
                 validate: string -> Option<string>): Answer<string>
  {
    if !Given(content) && file.None? then HttpError(400, "No content provided")
    else
      var text := if Given(content) then Ok(content.value) else FromUpload(file.value);
      match text
      case Ok(t) => (match validate(t) case Some(message) => HttpError(400, message) case None => Ok(t))
      case _ => text
  }

  /** The extra fields of a job created by `check_plagiarism`. */
  function CheckFields(text: string): (r: Job)
    ensures "status" !in r
  {
    map["original_content" := Str(text), "content_length" := Int(|text|)]
  }

  /**
   * `check_plagiarism(content, file)` up to the scheduling of the
   * background check, which runs `ProcessPlagiarismCheck` on `text`.
   */
  method CheckPlagiarism(store: JobStore, content: Option<string>, file: Option<Attempt<string>>,
                         validate: string -> Option<string>, jobId: string, now: real)
    returns (r: Answer<string>, text: string)
    modifies store
    ensures Admit(content, file, validate).Ok? ==>
      && text == Admit(content, file, validate).value
      && r == Ok(jobId)
      && store.jobs == old(store.jobs)[jobId := Fresh("processing", CheckFields(text), now)]
    ensures !Admit(content, file, validate).Ok? ==>
      r == Admit(content, file, validate) && store.jobs == old(store.jobs)
  {
    text := "";
    if !Given(content) && file.None? {
      return HttpError(400, "No content provided"), text;
    }
    if Given(content) {
      text := content.value;
    } else {
      var decoded := FromUpload(file.value);
      if !decoded.Ok? {
        return decoded, text;
      }
      text := decoded.value;
    }
    var refusal := validate(text);
    if refusal.Some? {
      return HttpError(400, refusal.value), text;
    }
    var _ := store.CreateJob(jobId, "processing", CheckFields(text), now);
    r := Ok(jobId);
  }

  /**
   * A request without content and without file is refused; otherwise an
   * admitted text is never empty, passed validation, and is the form
   * field whenever that was given.
   */
  lemma AdmitMeans(content: Option<string>, file: Option<Attempt<string>>, validate: string -> Option<string>)
    ensures !Given(content) && file.None? ==> Admit(content, file, validate) == HttpError(400, "No content provided")
    ensures Admit(content, file, validate).Ok? ==>
      var text := Admit(content, file, validate).value;
      && text != ""
      && validate(text).None?
      && (Given(content) ==> text == content.value)
      && (!Given(content) ==> file.Some? && file.value == Returned(text))
    ensures Given(content) && validate(content.value).None? ==> Admit(content, file, validate) == Ok(content.value)
  {
  }

  /** The job a successful request stores: processing, progress 0, the text and its length. */
  lemma AdmittedJob(text: string, now: real)
    ensures var job := Fresh("processing", CheckFields(text), now);
      && Holds(job, "status", Str("processing")) && Holds(job, "progress", Int(0))
      && Holds(job, "original_content", Str(text)) && Holds(job, "content_length", Int(|text|))
      && "content" !in job
  {
    var extra := CheckFields(text);
    FreshField("processing", extra, now, "status");
    FreshField("processing", extra, now, "progress");
    FreshField("processing", extra, now, "original_content");
    FreshField("processing", extra, now, "content_length");
    FreshField("processing", extra, now, "content");
  }

  // ----- check_status, start_plagiarism_check, get_results -----

  /** Python truthiness of what `get_job` returned. */
  predicate Found(job: Option<Job>) {
    job.Some? && job.value != map[]
  }

  /** `check_status(job_id)` for `job = job_store.get_job(job_id)`. */
  function CheckStatus(job: Option<Job>): (r: Answer<StatusReply>)
    ensures !Found(job) ==> r == HttpError(404, "Job not found")
    ensures Found(job) && "status" !in job.value ==> r == MissingKey("status")
    ensures r.Ok? ==> r.value.status == job.value["status"]
    ensures r.Ok? ==> r.value.progress == Get(job.value, "progress", Int(0))
    ensures r.Ok? ==> (r.value.message != Null ==> job.value["status"] == Str("failed"))
    ensures r.Ok? && job.value["status"] == Str("failed") ==> r.value.message == Get(job.value, "error", Null)
  {
    if !Found(job) then HttpError(404, "Job not found")
    else if "status" !in job.value then MissingKey("status")
    else
      var j := job.value;
      Ok(StatusReply(j["status"], Get(j, "progress", Int(0)),
                     if j["status"] == Str("failed") then Get(j, "error", Null) else Null))
  }

  /** The statuses from which a check may be (re)started. */
  predicate Restartable(status: Value) {
    status == Str("analyzed") || status == Str("failed")
  }

  /** The answer of `start_plagiarism_check` for the job as found. */
  function StartAnswer(job: Option<Job>): Answer<StatusReply> {
    if !Found(job) then HttpError(404, "Job not found")
    else if "status" !in job.value then MissingKey("status")
    else
      var status := job.value["status"];
      if Restartable(status) then Ok(StatusReply(Str("processing"), Int(0), Null))
      else if status == Str("processing") then Ok(StatusReply(Str("processing"), Get(job.value, "progress", Int(0)), Null))
      else if status == Str("completed") then Ok(StatusReply(Str("completed"), Int(100), Null))
      else HttpError(400, "Invalid job status: " + Show(status))
  }

  /** The reset `start_plagiarism_check` applies before restarting the check. */
  const ResetFields: Job := map["status" := Str("processing"), "progress" := Int(0)]

  /**
   * `start_plagiarism_check(job_id)`; `restarted` says whether the
   * background `RestartPlagiarismCheck` is scheduled.
   */
  method StartPlagiarismCheck(store: JobStore, jobId: string, now: real)
    returns (r: Answer<StatusReply>, restarted: bool)
    modifies store
    ensures r == StartAnswer(old(store.GetJob(jobId)))
    ensures restarted <==> Found(old(store.GetJob(jobId))) && "status" in old(store.jobs[jobId])
                           && Restartable(old(store.jobs[jobId]["status"]))
    ensures restarted ==> store.jobs == old(store.jobs)[jobId := Updated(old(store.jobs[jobId]), ResetFields, now)]
    ensures !restarted ==> store.jobs == old(store.jobs)
  {
    var job := store.GetJob(jobId);
    if !Found(job) {
      return HttpError(404, "Job not found"), false;
    }
    if "status" !in job.value {
      return MissingKey("status"), false;
    }
    var status := job.value["status"];
    if !Restartable(status) {
      if status == Str("processing") {
        return Ok(StatusReply(Str("processing"), Get(job.value, "progress", Int(0)), Null)), false;
      } else if status == Str("completed") {
        return Ok(StatusReply(Str("completed"), Int(100), Null)), false;
      } else {
        return HttpError(400, "Invalid job status: " + Show(status)), false;
      }
    }
    var _ := store.UpdateJob(jobId, ResetFields, now);
    return Ok(StatusReply(Str("processing"), Int(0), Null)), true;
  }

  /** Only an analyzed or failed job is reset; a processing job reports its progress unchanged. */
  lemma StartGating(job: Job)
    requires job != map[] && "status" in job
    ensures Restartable(job["status"]) ==> StartAnswer(Some(job)) == Ok(StatusReply(Str("processing"), Int(0), Null))
    ensures job["status"] == Str("processing") ==>
      StartAnswer(Some(job)) == Ok(StatusReply(Str("processing"), Get(job, "progress", Int(0)), Null))
    ensures job["status"] == Str("completed") ==> StartAnswer(Some(job)) == Ok(StatusReply(Str("completed"), Int(100), Null))
    ensures job["status"].Str? && job["status"].s !in {"analyzed", "failed", "processing", "completed"} ==>
      StartAnswer(Some(job)) == HttpError(400, "Invalid job status: " + job["status"].s)
  {
  }

  /** `get_results(job_id)` for the job as found. */
  function GetResults(job: Option<Job>): (r: Answer<Value>)
    ensures !Found(job) ==> r == HttpError(404, "Job not found")
    ensures r.Ok? ==> Found(job) && "status" in job.value && "result" in job.value
    ensures r.Ok? ==> job.value["status"] == Str("completed") && r.value == job.value["result"]
    ensures Found(job) && "status" in job.value && job.value["status"] == Str("failed") ==>
      r == HttpError(400, "Job failed: " + Show(Get(job.value, "error", Str("Unknown error"))))
    ensures Found(job) && "status" in job.value && job.value["status"] != Str("failed")
            && job.value["status"] != Str("completed") ==>
      r == HttpError(400, "Job not yet completed")
  {
    if !Found(job) then HttpError(404, "Job not found")
    else if "status" !in job.value then MissingKey("status")
    else
      var j := job.value;
      if j["status"] != Str("completed") then
        if j["status"] == Str("failed") then HttpError(400, "Job failed: " + Show(Get(j, "error", Str("Unknown error"))))
        else HttpError(400, "Job not yet completed")
      else if "result" !in j then MissingKey("result")
      else Ok(j["result"])
  }

  /** The result of a job completed through the store is handed out. */
  lemma CompletedResultsServed(job: Job, result: Value, now: real)
    ensures GetResults(Some(Completed(job, result, now))) == Ok(result)
  {
    CompletedField(job, result, now, "status");
    CompletedField(job, result, now, "result");
  }

  // ----- process_plagiarism_check -----

  const StartStep: Job := map["status" := Str("processing"), "progress" := Int(10)]
  const SearchStep: Job := map["status" := Str("processing"), "progress" := Int(30),
                               "status_message" := Str("Searching web for sources")]
  const AnalyzeStep: Job := map["progress" := Int(60), "status_message" := Str("Analyzing similarity")]

  /** The job after `process_plagiarism_check(job_id, text)`. */
  function Processed(job: Job, text: string, search: Attempt<seq<Similarity.Source>>,
                     check: (Value, seq<Similarity.Source>) -> Attempt<Similarity.Verdict>, now: real): Job
  {
    match search
    case Raised(e) => Failed(Searching(job, now), e, now)
    case Returned(sources) => Analyzed(Searching(job, now), text, sources, check, now)
  }

  /** The job after the two status updates before the search. */
  function Searching(job: Job, now: real): Job {
    Updated(Updated(job, StartStep, now), SearchStep, now)
  }

  /** The two status updates before the search. */
  method StartSearch(store: JobStore, jobId: string, now: real)
    modifies store
    ensures jobId !in old(store.jobs) ==> store.jobs == old(store.jobs)
    ensures jobId in old(store.jobs) ==> store.jobs == old(store.jobs)[jobId := Searching(old(store.jobs[jobId]), now)]
  {
    var _ := store.UpdateJob(jobId, StartStep, now);
    var _ := store.UpdateJob(jobId, SearchStep, now);
  }

  /** `process_plagiarism_check(job_id, text)`. */
  method ProcessPlagiarismCheck(store: JobStore, jobId: string, text: string,
                                search: Attempt<seq<Similarity.Source>>,
                                check: (Value, seq<Similarity.Source>) -> Attempt<Similarity.Verdict>, now: real)
    modifies store
    ensures jobId !in old(store.jobs) ==> store.jobs == old(store.jobs)
    ensures jobId in old(store.jobs) ==>
      store.jobs == old(store.jobs)[jobId := Processed(old(store.jobs[jobId]), text, search, check, now)]
  {
    StartSearch(store, jobId, now);
    if search.Raised? {
      store.SetJobFailed(jobId, search.message, now);
      return;
    }
    AnalyzeSources(store, jobId, text, search.value, check, now);
  }

  /** The job after the search step found `sources`. */
  function Analyzed(searching: Job, text: string, sources: seq<Similarity.Source>,
                    check: (Value, seq<Similarity.Source>) -> Attempt<Similarity.Verdict>, now: real): Job
  {
    var analyzing := Updated(searching, AnalyzeStep, now);
    match check(Str(text), sources)
    case Raised(e) => Failed(analyzing, e, now)
    case Returned(v) => Completed(analyzing, VerdictValue(v), now)
  }

  /** The steps of `process_plagiarism_check` after the search returned `sources`. */
  method AnalyzeSources(store: JobStore, jobId: string, text: string, sources: seq<Similarity.Source>,
                        check: (Value, seq<Similarity.Source>) -> Attempt<Similarity.Verdict>, now: real)
    modifies store
    ensures jobId !in old(store.jobs) ==> store.jobs == old(store.jobs)
    ensures jobId in old(store.jobs) ==>
      store.jobs == old(store.jobs)[jobId := Analyzed(old(store.jobs[jobId]), text, sources, check, now)]
  {
    var _ := store.UpdateJob(jobId, AnalyzeStep, now);
    var outcome := check(Str(text), sources);
    if outcome.Raised? {
      store.SetJobFailed(jobId, outcome.message, now);
      return;
    }
    store.SetJobCompleted(jobId, VerdictValue(outcome.value), now);
  }

  /**
   * The pipeline ends completed with the verdict at progress 100, or
   * failed with the exception's message at the progress last reached;
   * the stored text is kept.
   */
  lemma ProcessedOutcome(job: Job, text: string, search: Attempt<seq<Similarity.Source>>,
                         check: (Value, seq<Similarity.Source>) -> Attempt<Similarity.Verdict>, now: real)
    ensures var r := Processed(job, text, search, check, now);
      && (search.Raised? ==> Holds(r, "status", Str("failed")) && Holds(r, "error", Str(search.message)) && Holds(r, "progress", Int(30)))
      && (search.Returned? && check(Str(text), search.value).Raised? ==>
            Holds(r, "status", Str("failed")) && Holds(r, "error", Str(check(Str(text), search.value).message))
            && Holds(r, "progress", Int(60)))
      && (search.Returned? && check(Str(text), search.value).Returned? ==>
            Holds(r, "status", Str("completed")) && Holds(r, "progress", Int(100))
            && Holds(r, "result", VerdictValue(check(Str(text), search.value).value)))
      && ("original_content" in job ==> Holds(r, "original_content", job["original_content"]))
  {
    var started := Updated(job, StartStep, now);
    var searching := Updated(started, SearchStep, now);
    UpdatedField(job, StartStep, now, "original_content");
    UpdatedField(started, SearchStep, now, "original_content");
    UpdatedField(started, SearchStep, now, "progress");
    match search
    case Raised(e) =>
      FailedEnds(searching, e, now);
    case Returned(sources) =>
      var analyzing := Updated(searching, AnalyzeStep, now);
      UpdatedField(searching, AnalyzeStep, now, "original_content");
      UpdatedField(searching, AnalyzeStep, now, "progress");
      match check(Str(text), sources)
      case Raised(e) =>
        FailedEnds(analyzing, e, now);
      case Returned(v) =>
        CompletedEnds(analyzing, VerdictValue(v), now);
  }

  /** What a failure leaves in the fields the pipelines care about. */
  lemma FailedEnds(job: Job, error: string, now: real)
    ensures var r := Failed(job, error, now);
      && Holds(r, "status", Str("failed")) && Holds(r, "error", Str(error))
      && ("progress" in job ==> Holds(r, "progress", job["progress"]))
      && ("original_content" in job ==> Holds(r, "original_content", job["original_content"]))
      && ("sources" in job ==> Holds(r, "sources", job["sources"]))
  {
    FailedField(job, error, now, "status");
    FailedField(job, error, now, "error");
    FailedField(job, error, now, "progress");
    FailedField(job, error, now, "original_content");
    FailedField(job, error, now, "sources");
  }

  /** What a completion leaves in the fields the pipelines care about. */
  lemma CompletedEnds(job: Job, result: Value, now: real)
    ensures var r := Completed(job, result, now);
      && Holds(r, "status", Str("completed")) && Holds(r, "result", result) && Holds(r, "progress", Int(100))
      && ("original_content" in job ==> Holds(r, "original_content", job["original_content"]))
      && ("sources" in job ==> Holds(r, "sources", job["sources"]))
  {
    CompletedField(job, result, now, "status");
    CompletedField(job, result, now, "result");
    CompletedField(job, result, now, "progress");
    CompletedField(job, result, now, "original_content");
    CompletedField(job, result, now, "sources");
  }

  // ----- settings.MAX_SOURCES -----

  /**
   * What `settings.MAX_SOURCES` holds: `Settings` in `config.py` declares
   * no such field and ignores extra ones, so it has none.
   */
  const DeclaredMaxSources: Option<int> := None

  /** The message of the `AttributeError` that reading an undeclared setting raises. */
  const MaxSourcesMissing := "'Settings' object has no attribute 'MAX_SOURCES'"

  /**
   * The search step `find_and_scrape_sources(content, max_sources=settings.MAX_SOURCES)`:
   * the setting is read before the search runs, and `find(content, n)` is
   * what the search returns or raises with the limit `n`.
   */
  function SearchFor(maxSources: Option<int>, find: (Value, int) -> Attempt<seq<Similarity.Source>>,
                     content: Value): Attempt<seq<Similarity.Source>>
  {
    match maxSources
    case None => Raised(MaxSourcesMissing)
    case Some(n) => find(content, n)
  }

  /**
   * As written, every check admitted by `check_plagiarism` ends failed at
   * progress 30 with the `AttributeError` of `settings.MAX_SOURCES`,
   * whatever the search and the check would do; the text is kept.
   */
  lemma ProcessAsWrittenFails(text: string, now: real, later: real,
                              find: (Value, int) -> Attempt<seq<Similarity.Source>>,
                              check: (Value, seq<Similarity.Source>) -> Attempt<Similarity.Verdict>)
    ensures var job := Fresh("processing", CheckFields(text), now);
      var r := Processed(job, text, SearchFor(DeclaredMaxSources, find, Str(text)), check, later);
      && Holds(r, "status", Str("failed")) && Holds(r, "error", Str(MaxSourcesMissing))
      && Holds(r, "progress", Int(30)) && Holds(r, "original_content", Str(text))
  {
    AdmittedJob(text, now);
    ProcessedOutcome(Fresh("processing", CheckFields(text), now), text,
                     SearchFor(DeclaredMaxSources, find, Str(text)), check, later);
  }

  /**
   * With the setting declared, a check admitted by `check_plagiarism`
   * searches with that limit and, when the search and the check succeed,
   * completes at progress 100 with the verdict, keeping the text.
   */
  lemma ProcessIntendedCompletes(text: string, now: real, later: real, maxSources: int,
                                 find: (Value, int) -> Attempt<seq<Similarity.Source>>,
                                 check: (Value, seq<Similarity.Source>) -> Attempt<Similarity.Verdict>)
    requires find(Str(text), maxSources).Returned?
    requires check(Str(text), find(Str(text), maxSources).value).Returned?
    ensures var job := Fresh("processing", CheckFields(text), now);
      var r := Processed(job, text, SearchFor(Some(maxSources), find, Str(text)), check, later);
      var v := check(Str(text), find(Str(text), maxSources).value).value;
      && Holds(r, "status", Str("completed")) && Holds(r, "progress", Int(100))
      && Holds(r, "result", VerdictValue(v)) && Holds(r, "original_content", Str(text))
  {
    AdmittedJob(text, now);
    ProcessedOutcome(Fresh("processing", CheckFields(text), now), text,
                     SearchFor(Some(maxSources), find, Str(text)), check, later);
  }

  // ----- _process_plagiarism_check -----

  /** The key `_process_plagiarism_check` reads the text from. */
  const AsWrittenKey := "content"
  /** The key `check_plagiarism` stores the text under. */
  const IntendedKey := "original_content"

  const RestartSearchStep: Job := map["progress" := Int(30), "status_message" := Str("Searching web for sources")]

  /** The result with the job's themes copied in, when the job has them. */
  function WithThemes(result: Value, job: Job): Value {
    if "themes" in job && result.Obj? then Obj(result.fields["themes" := job["themes"]]) else result
  }

  /** The message of a `KeyError` for `key`: the key in quotes. */
  function KeyError(key: string): string {
    "'" + key + "'"
  }

  /**
   * The job after `_process_plagiarism_check(job_id)` when it reads the
   * text from `key`; a missing key raises `KeyError`, whose message is
   * the quoted key.
   */
  function Restarted(job: Job, key: string, search: Value -> Attempt<seq<Similarity.Source>>,
                     check: (Value, seq<Similarity.Source>) -> Attempt<Similarity.Verdict>, now: real): Job
  {
    var started := Updated(job, StartStep, now);
    if key !in started then Failed(started, KeyError(key), now)
    else Searched(started, started[key], search, check, now)
  }

  /** The job after the search (and, when it succeeds, the check) of the restart. */
  function Searched(started: Job, content: Value, search: Value -> Attempt<seq<Similarity.Source>>,
                    check: (Value, seq<Similarity.Source>) -> Attempt<Similarity.Verdict>, now: real): Job
  {
    var searching := Updated(started, RestartSearchStep, now);
    match search(content)
    case Raised(e) => Failed(searching, e, now)
    case Returned(sources) => Checked(searching, content, sources, check, now)
  }

  /** The fields stored once the restart's search found `sources`. */
  function FoundStep(sources: seq<Similarity.Source>): Job {
    map["progress" := Int(60), "sources" := SourcesValue(sources)]
  }

  /**
   * The job after the restart's search found `sources`: those stored,
   * then the check's outcome, with the job's themes copied into the verdict.
   */
  function Checked(searching: Job, content: Value, sources: seq<Similarity.Source>,
                   check: (Value, seq<Similarity.Source>) -> Attempt<Similarity.Verdict>, now: real): Job
  {
    var analyzing := Updated(searching, FoundStep(sources), now);
    match check(content, sources)
    case Raised(e) => Failed(analyzing, e, now)
    case Returned(v) => Completed(analyzing, WithThemes(VerdictValue(v), analyzing), now)
  }

  /** `_process_plagiarism_check` as written: it reads `job["content"]`. */
  function RestartedAsWritten(job: Job, search: Value -> Attempt<seq<Similarity.Source>>,
                              check: (Value, seq<Similarity.Source>) -> Attempt<Similarity.Verdict>, now: real): Job
  {
    Restarted(job, AsWrittenKey, search, check, now)
  }

  /**
   * A job created by `check_plagiarism` has no `content` field, so the
   * restart as written always fails with `KeyError('content')` at
   * progress 10, whatever the search and the check would do.
   */
  lemma RestartAsWrittenFails(text: string, now: real, later: real,
                              search: Value -> Attempt<seq<Similarity.Source>>,
                              check: (Value, seq<Similarity.Source>) -> Attempt<Similarity.Verdict>)
    ensures var job := Updated(Fresh("processing", CheckFields(text), now), ResetFields, later);
      var r := RestartedAsWritten(job, search, check, later);
      Holds(r, "status", Str("failed")) && Holds(r, "error", Str(KeyError("content"))) && Holds(r, "progress", Int(10))
  {
    var created := Fresh("processing", CheckFields(text), now);
    var job := Updated(created, ResetFields, later);
    AdmittedJob(text, now);
    UpdatedField(created, ResetFields, later, AsWrittenKey);
    assert AsWrittenKey !in job;
    RestartedOutcome(job, AsWrittenKey, search, check, later);
  }

  /** `_process_plagiarism_check` reading the text where `check_plagiarism` stored it. */
  method RestartPlagiarismCheck(store: JobStore, jobId: string, search: Value -> Attempt<seq<Similarity.Source>>,
                                check: (Value, seq<Similarity.Source>) -> Attempt<Similarity.Verdict>, now: real)
    modifies store
    ensures !Found(old(store.GetJob(jobId))) ==> store.jobs == old(store.jobs)
    ensures Found(old(store.GetJob(jobId))) ==>
      store.jobs == old(store.jobs)[jobId := Restarted(old(store.jobs[jobId]), IntendedKey, search, check, now)]
  {
    var job := store.GetJob(jobId);
    if !Found(job) {
      return;
    }
    var _ := store.UpdateJob(jobId, StartStep, now);
    if IntendedKey !in store.jobs[jobId] {
      store.SetJobFailed(jobId, KeyError(IntendedKey), now);
      return;
    }
    SearchThenCheck(store, jobId, store.jobs[jobId][IntendedKey], search, check, now);
  }

  /** The restart's steps from the search on, for a known job and the text read from it. */
  method SearchThenCheck(store: JobStore, jobId: string, content: Value,
                         search: Value -> Attempt<seq<Similarity.Source>>,
                         check: (Value, seq<Similarity.Source>) -> Attempt<Similarity.Verdict>, now: real)
    requires jobId in store.jobs
    modifies store
    ensures store.jobs == old(store.jobs)[jobId := Searched(old(store.jobs[jobId]), content, search, check, now)]
  {
    ghost var before := store.jobs;
    var _ := store.UpdateJob(jobId, RestartSearchStep, now);
    ghost var searching := Updated(before[jobId], RestartSearchStep, now);
    var found := search(content);
    if found.Raised? {
      store.SetJobFailed(jobId, found.message, now);
      Lists.MapUpdateTwice(before, jobId, searching, Failed(searching, found.message, now));
      return;
    }
    StoreVerdict(store, jobId, content, found.value, check, now);
    Lists.MapUpdateTwice(before, jobId, searching, Checked(searching, content, found.value, check, now));
  }

  /** The restart's sources stored, then its check and the check's outcome, for a known job. */
  method StoreVerdict(store: JobStore, jobId: string, content: Value, sources: seq<Similarity.Source>,
                      check: (Value, seq<Similarity.Source>) -> Attempt<Similarity.Verdict>, now: real)
    requires jobId in store.jobs
    modifies store
    ensures store.jobs == old(store.jobs)[jobId := Checked(old(store.jobs[jobId]), content, sources, check, now)]
  {
    ghost var before := store.jobs;
    var _ := store.UpdateJob(jobId, FoundStep(sources), now);
    ghost var analyzing := Updated(before[jobId], FoundStep(sources), now);
    var outcome := check(content, sources);
    if outcome.Raised? {
      store.SetJobFailed(jobId, outcome.message, now);
      Lists.MapUpdateTwice(before, jobId, analyzing, Failed(analyzing, outcome.message, now));
      return;
    }
    var result := WithThemes(VerdictValue(outcome.value), store.jobs[jobId]);
    store.SetJobCompleted(jobId, result, now);
    Lists.MapUpdateTwice(before, jobId, analyzing, Completed(analyzing, result, now));
  }

  /**
   * The restart fails at progress 10 with the quoted key when the job
   * lacks the key it reads; otherwise it goes on to the search with the
   * value stored under that key.
   */
  lemma RestartedOutcome(job: Job, key: string, search: Value -> Attempt<seq<Similarity.Source>>,
                         check: (Value, seq<Similarity.Source>) -> Attempt<Similarity.Verdict>, now: real)
    requires key != "status" && key != "progress" && key != "updated_at"
    ensures var r := Restarted(job, key, search, check, now);
      key !in job ==> Holds(r, "status", Str("failed")) && Holds(r, "error", Str(KeyError(key))) && Holds(r, "progress", Int(10))
    ensures key in job ==>
      Restarted(job, key, search, check, now) == Searched(Updated(job, StartStep, now), job[key], search, check, now)
  {
    var started := Updated(job, StartStep, now);
    UpdatedField(job, StartStep, now, key);
    UpdatedField(job, StartStep, now, "progress");
    FailedEnds(started, KeyError(key), now);
  }

  /**
   * From the search on, the restart fails with the search's message at
   * progress 30, or stores the sources and then fails with the check's
   * message at progress 60 or completes at progress 100 with the verdict
   * and the job's themes.
   */
  lemma SearchedOutcome(started: Job, content: Value, search: Value -> Attempt<seq<Similarity.Source>>,
                        check: (Value, seq<Similarity.Source>) -> Attempt<Similarity.Verdict>, now: real)
    ensures var r := Searched(started, content, search, check, now);
      search(content).Raised? ==>
        Holds(r, "status", Str("failed")) && Holds(r, "error", Str(search(content).message)) && Holds(r, "progress", Int(30))
    ensures var r := Searched(started, content, search, check, now);
      search(content).Returned? ==> Holds(r, "sources", SourcesValue(search(content).value))
    ensures var r := Searched(started, content, search, check, now);
      search(content).Returned? && check(content, search(content).value).Raised? ==>
        Holds(r, "status", Str("failed")) && Holds(r, "error", Str(check(content, search(content).value).message))
        && Holds(r, "progress", Int(60))
    ensures var r := Searched(started, content, search, check, now);
      search(content).Returned? && check(content, search(content).value).Returned? ==>
        Holds(r, "status", Str("completed")) && Holds(r, "progress", Int(100))
        && Holds(r, "result", WithThemes(VerdictValue(check(content, search(content).value).value), started))
  {
    var searching := Updated(started, RestartSearchStep, now);
    UpdatedField(started, RestartSearchStep, now, "progress");
    match search(content)
    case Raised(e) =>
      FailedEnds(searching, e, now);
    case Returned(sources) =>
      var analyzing := Updated(searching, FoundStep(sources), now);
      UpdatedField(searching, FoundStep(sources), now, "sources");
      UpdatedField(searching, FoundStep(sources), now, "progress");
      UpdatedThemes(started, RestartSearchStep, now);
      UpdatedThemes(searching, FoundStep(sources), now);
      match check(content, sources)
      case Raised(e) =>
        FailedEnds(analyzing, e, now);
      case Returned(v) =>
        ThemesUnchanged(VerdictValue(v), analyzing, started);
        CompletedEnds(analyzing, WithThemes(VerdictValue(v), analyzing), now);
  }

  /** An update that does not write `themes` keeps the job's themes. */
  lemma UpdatedThemes(job: Job, fields: Job, now: real)
    requires "themes" !in fields
    ensures ("themes" in Updated(job, fields, now)) == ("themes" in job)
    ensures "themes" in job ==> Updated(job, fields, now)["themes"] == job["themes"]
  {
    UpdatedField(job, fields, now, "themes");
  }

  /** Copying the themes in depends only on the themes. */
  lemma ThemesUnchanged(result: Value, job: Job, other: Job)
    requires ("themes" in job) == ("themes" in other)
    requires "themes" in job ==> job["themes"] == other["themes"]
    ensures WithThemes(result, job) == WithThemes(result, other)
  {
  }

  /** The restart's search: `find_and_scrape_sources_optimized(content, max_sources=settings.MAX_SOURCES)`. */
  function RestartSearch(maxSources: Option<int>, find: (Value, int) -> Attempt<seq<Similarity.Source>>)
    : Value -> Attempt<seq<Similarity.Source>>
  {
    c => SearchFor(maxSources, find, c)
  }

  /**
   * Even reading the stored text, a restarted check of a job created by
   * `check_plagiarism` fails at progress 30 with the `AttributeError` of
   * `settings.MAX_SOURCES`, whatever the search and the check would do.
   */
  lemma RestartSettingsFails(text: string, now: real, later: real,
                             find: (Value, int) -> Attempt<seq<Similarity.Source>>,
                             check: (Value, seq<Similarity.Source>) -> Attempt<Similarity.Verdict>)
    ensures var job := Updated(Fresh("processing", CheckFields(text), now), ResetFields, later);
      var r := Restarted(job, IntendedKey, RestartSearch(DeclaredMaxSources, find), check, later);
      Holds(r, "status", Str("failed")) && Holds(r, "error", Str(MaxSourcesMissing)) && Holds(r, "progress", Int(30))
  {
    var search := RestartSearch(DeclaredMaxSources, find);
    var created := Fresh("processing", CheckFields(text), now);
    var job := Updated(created, ResetFields, later);
    AdmittedJob(text, now);
    UpdatedField(created, ResetFields, later, IntendedKey);
    RestartedOutcome(job, IntendedKey, search, check, later);
    assert search(Str(text)) == Raised(MaxSourcesMissing);
    SearchedOutcome(Updated(job, StartStep, later), Str(text), search, check, later);
  }

  /**
   * Reading the stored text, with the setting declared, a restarted
   * check of a job created by `check_plagiarism` runs the search with
   * that limit and the check on that text and, when both succeed,
   * completes with the verdict as it is (the job has no themes) and the
   * sources it found, at progress 100.
   */
  lemma RestartIntendedCompletes(text: string, now: real, later: real, maxSources: int,
                                 find: (Value, int) -> Attempt<seq<Similarity.Source>>,
                                 check: (Value, seq<Similarity.Source>) -> Attempt<Similarity.Verdict>)
    requires find(Str(text), maxSources).Returned?
    requires check(Str(text), find(Str(text), maxSources).value).Returned?
    ensures var job := Updated(Fresh("processing", CheckFields(text), now), ResetFields, later);
      var r := Restarted(job, IntendedKey, RestartSearch(Some(maxSources), find), check, later);
      var sources := find(Str(text), maxSources).value;
      && Holds(r, "status", Str("completed")) && Holds(r, "progress", Int(100))
      && Holds(r, "result", VerdictValue(check(Str(text), sources).value))
      && Holds(r, "sources", SourcesValue(sources))
  {
    var search := RestartSearch(Some(maxSources), find);
    assert search(Str(text)) == find(Str(text), maxSources);
    var extra := CheckFields(text);
    var created := Fresh("processing", extra, now);
    var job := Updated(created, ResetFields, later);
    AdmittedJob(text, now);
    FreshField("processing", extra, now, "themes");
    UpdatedField(created, ResetFields, later, IntendedKey);
    UpdatedThemes(created, ResetFields, later);
    UpdatedThemes(job, StartStep, later);
    var started := Updated(job, StartStep, later);
    assert "themes" !in started;
    RestartedOutcome(job, IntendedKey, search, check, later);
    assert Restarted(job, IntendedKey, search, check, later) == Searched(started, Str(text), search, check, later);
    SearchedOutcome(started, Str(text), search, check, later);
  }
}
