/**
 * The `/analyze` endpoint of `analyze.py` and its background task over
 * the endpoint's own job table: the choice of the text to analyze, the
 * job it creates, and the themes-then-sources steps of the analysis.
 *
 * `json.loads` is the `parse` parameter (`None` for a `JSONDecodeError`),
 * the uploaded file is the text it decodes to or the message of the
 * error that reading or decoding raised, the job id drawn from
 * `uuid.uuid4()` is the `jobId` argument, and `search(themes)` is what
 * `search_relevant_content(themes)` returned or raised.
 */
module Analyze {
  import opened Wrappers
  import opened Json
  import opened JobStore
  import Embedding

  /** What `analyze_text` answers: the started job, an `HTTPException`, or an exception it lets through. */
  datatype Outcome = Started(jobId: string) | Rejected(code: int, detail: string) | Crashed(message: string)

  /** A form field Python counts as given: present and non-empty. */
  predicate Given(field: Option<string>) {
    field.Some? && field.value != ""
  }

  /** The `content` field of a JSON object, or the raw text when it is not one. */
  function FromText(text: string, parse: string -> Option<Value>): Value {
    match parse(text)
    case Some(Obj(fields)) => if "content" in fields then fields["content"] else Str(text)
    case _ => Str(text)
  }

  /**
   * The content `analyze_text` analyzes: the text input when given, else
   * the uploaded file, else the refusal.
   */
  function Admit(textInput: Option<string>, file: Option<Attempt<string>>,
                 parse: string -> Option<Value>): (r: Attempt<Value>)
    ensures Given(textInput) ==> r.Returned?
    ensures Given(textInput) && parse(textInput.value).Some? && parse(textInput.value).value.Obj?
            && "content" in parse(textInput.value).value.fields ==>
      r.value == parse(textInput.value).value.fields["content"]
    ensures Given(textInput) && !(parse(textInput.value).Some? && parse(textInput.value).value.Obj?
            && "content" in parse(textInput.value).value.fields) ==>
      r.value == Str(textInput.value)
    ensures !Given(textInput) ==> (r.Returned? <==> file.Some? && file.value.Returned?)
    ensures !Given(textInput) && r.Returned? ==> r.value == Str(file.value.value)
  {
    if Given(textInput) then Returned(FromText(textInput.value, parse))
    else if file.Some? then
      match file.value
      case Raised(message) => Raised(message)
      case Returned(text) => Returned(Str(text))
    else Raised(NoInput)
  }

  const NoInput := "Either text_input or file must be provided"

  /** The job `analyze_text` stores for `content`. */
  function NewJob(content: Value): Job {
    map["status" := Str("processing"), "content" := content, "themes" := Arr([]), "urls" := Arr([]),
        "sources" := Arr([]), "result" := Null, "progress" := Int(0)]
  }

  /**
   * The themes `get_text_themes(content)` returns: those of the text, or
   * `["general"]` when the content is not a string, since the error of
   * lower-casing it is caught there.
   */
  function ThemesOf(content: Value): (r: seq<string>)
    ensures 1 <= |r| <= Embedding.MaxThemes
  {
    if content.Str? then Embedding.Themes(content.s, Embedding.MaxThemes) else [Embedding.General]
  }

  /** The job once the analysis started, at progress 10. */
  function Begun(job: Job): Job {
    job["status" := Str("processing")]["progress" := Int(10)]
  }

  /** The job once `themes` are stored at progress 50. */
  function Stored(job: Job, themes: seq<string>): Job {
    job["themes" := StrList(themes)]["progress" := Int(50)]
  }

  /** The job once the search for sources answered `urls`. */
  function Finished(job: Job, urls: Attempt<Value>): Job {
    match urls
    case Raised(e) => job["status" := Str("failed")]["error" := Str(e)]
    case Returned(found) => job["urls" := found]["progress" := Int(100)]["status" := Str("analyzed")]
  }

  /** The job after `_process_analysis(job_id, content)`. */
  function Analysis(job: Job, content: Value, search: seq<string> -> Attempt<Value>): Job {
    Finished(Stored(Begun(job), ThemesOf(content)), search(ThemesOf(content)))
  }

  /** The module-level `jobs` table of `analyze.py`. */
  class AnalyzeJobs {
    var jobs: map<string, Job>

    constructor ()
      ensures jobs == map[]
    {
      jobs := map[];
    }

    /** `analyze_text(text_input, file)`, creating job `jobId` when the content is admitted. */
    method AnalyzeText(textInput: Option<string>, file: Option<Attempt<string>>,
                       parse: string -> Option<Value>, jobId: string) returns (r: Outcome)
      modifies this
      ensures !Given(textInput) && file.None? ==> r == Rejected(400, NoInput) && jobs == old(jobs)
      ensures !Given(textInput) && file.Some? && file.value.Raised? ==>
        r == Crashed(file.value.message) && jobs == old(jobs)
      ensures Admit(textInput, file, parse).Returned? ==>
        r == Started(jobId) && jobs == old(jobs)[jobId := NewJob(Admit(textInput, file, parse).value)]
    {
      var content: Value;
      if Given(textInput) {
        match parse(textInput.value)
        case Some(Obj(fields)) =>
          content := if "content" in fields then fields["content"] else Str(textInput.value);
        case _ =>
          content := Str(textInput.value);
      } else if file.Some? {
        if file.value.Raised? {
          return Crashed(file.value.message);
        }
        content := Str(file.value.value);
      } else {
        return Rejected(400, NoInput);
      }
      jobs := jobs[jobId := NewJob(content)];
      return Started(jobId);
    }

    /** `jobs[job_id][key] = v`. */
    method SetField(jobId: string, key: string, v: Value)
      requires jobId in jobs
      modifies this
      ensures jobs == old(jobs)[jobId := old(jobs)[jobId][key := v]]
    {
      jobs := jobs[jobId := jobs[jobId][key := v]];
    }

    /** The first step: processing at progress 10. */
    method Begin(jobId: string)
      requires jobId in jobs
      modifies this
      ensures jobs == old(jobs)[jobId := Begun(old(jobs)[jobId])]
    {
      SetField(jobId, "status", Str("processing"));
      SetField(jobId, "progress", Int(10));
    }

    /** The second step: the themes at progress 50. */
    method StoreThemes(jobId: string, themes: seq<string>)
      requires jobId in jobs
      modifies this
      ensures jobs == old(jobs)[jobId := Stored(old(jobs)[jobId], themes)]
    {
      SetField(jobId, "themes", StrList(themes));
      SetField(jobId, "progress", Int(50));
    }

    /** The last step: the found sources, or the failure the search raised. */
    method Finish(jobId: string, urls: Attempt<Value>)
      requires jobId in jobs
      modifies this
      ensures jobs == old(jobs)[jobId := Finished(old(jobs)[jobId], urls)]
    {
      if urls.Raised? {
        SetField(jobId, "status", Str("failed"));
        SetField(jobId, "error", Str(urls.message));
        return;
      }
      SetField(jobId, "urls", urls.value);
      SetField(jobId, "progress", Int(100));
      SetField(jobId, "status", Str("analyzed"));
    }

    /**
     * `_process_analysis(job_id, content)`. For an unknown id the first
     * write raises `KeyError` and so does the handler's, leaving the table
     * as it was.
     */
    method ProcessAnalysis(jobId: string, content: Value, search: seq<string> -> Attempt<Value>)
      modifies this
      ensures jobId !in old(jobs) ==> jobs == old(jobs)
      ensures jobId in old(jobs) ==> jobs == old(jobs)[jobId := Analysis(old(jobs)[jobId], content, search)]
    {
      if jobId !in jobs {
        return;
      }
      Begin(jobId);
      var themes := ThemesFor(content);
      StoreThemes(jobId, themes);
      var urls := search(themes);
      Finish(jobId, urls);
    }
  }

  /** `get_text_themes(content)`, falling back to `["general"]` for content that is not a string. */
  method ThemesFor(content: Value) returns (themes: seq<string>)
    ensures themes == ThemesOf(content)
  {
    if content.Str? {
      themes := Embedding.GetTextThemes(content.s, Embedding.MaxThemes);
    } else {
      themes := [Embedding.General];
    }
  }

  // ----- Properties -----

  /** A new job: processing at progress 0, the content, empty lists and no result. */
  lemma NewJobFields(content: Value)
    ensures NewJob(content).Keys == {"status", "content", "themes", "urls", "sources", "result", "progress"}
    ensures Holds(NewJob(content), "status", Str("processing")) && Holds(NewJob(content), "progress", Int(0))
    ensures Holds(NewJob(content), "content", content) && Holds(NewJob(content), "result", Null)
    ensures Holds(NewJob(content), "themes", Arr([])) && Holds(NewJob(content), "urls", Arr([]))
    ensures Holds(NewJob(content), "sources", Arr([]))
  {
  }

  /**
   * The analysis ends analyzed at progress 100 with the themes and the
   * found sources, or failed with the search's message at progress 50
   * with the themes kept; the content is left as it was.
   */
  lemma AnalysisOutcome(job: Job, content: Value, search: seq<string> -> Attempt<Value>)
    ensures var r := Analysis(job, content, search);
      Holds(r, "themes", StrList(ThemesOf(content)))
      && ("content" in job ==> Holds(r, "content", job["content"]))
    ensures var r := Analysis(job, content, search);
      search(ThemesOf(content)).Raised? ==>
        Holds(r, "status", Str("failed")) && Holds(r, "progress", Int(50))
        && Holds(r, "error", Str(search(ThemesOf(content)).message))
    ensures var r := Analysis(job, content, search);
      search(ThemesOf(content)).Returned? ==>
        Holds(r, "status", Str("analyzed")) && Holds(r, "progress", Int(100))
        && Holds(r, "urls", search(ThemesOf(content)).value)
  {
  }

  /**
   * Analysing the job `analyze_text` created for its content stores the
   * themes of that content.
   */
  lemma AnalyzedJobThemes(textInput: Option<string>, file: Option<Attempt<string>>,
                          parse: string -> Option<Value>, search: seq<string> -> Attempt<Value>)
    requires Admit(textInput, file, parse).Returned?
    ensures var content := Admit(textInput, file, parse).value;
      Holds(Analysis(NewJob(content), content, search), "content", content)
      && Holds(Analysis(NewJob(content), content, search), "themes", StrList(ThemesOf(content)))
  {
    AnalysisOutcome(NewJob(Admit(textInput, file, parse).value), Admit(textInput, file, parse).value, search);
  }
}
