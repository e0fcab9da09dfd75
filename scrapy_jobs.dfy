/**
 * The Scrapy Cloud job helpers of `ZyteServiceRouter`: the status query,
 * the polling loop with capped back-off, and the JSON-lines item reader.
 * Every request is an oracle indexed by what distinguishes it (the poll
 * number, the storage job id); the clock is the time each poll and each
 * sleep takes.
 */
module ScrapyJobs {
  import opened Wrappers
  import opened Strings
  import Json
  import opened Lists

  // ----- _check_job_status -----

  /** The jobs listing: the status code and, per listed job, its `state` key if present. */
  datatype ListResponse = ListResponse(status: int, jobStates: seq<Option<string>>)

  /** `_check_job_status(job_id)`, given what the listing request produced. */
  function JobStatus(response: Attempt<ListResponse>): (state: string)
    ensures state == "finished" ==>
      response.Returned? && response.value.status == 200
      && |response.value.jobStates| > 0 && response.value.jobStates[0] == Some("finished")
    ensures response.Raised? || response.value.status != 200 ==> state == "error"
  {
    match response
    case Raised(_) => "error"
    case Returned(listing) =>
      if listing.status != 200 then "error"
      else if listing.jobStates == [] then "not_found"
      else match listing.jobStates[0]
        case Some(s) => s
        case None => "unknown"
  }

  // ----- _wait_for_job -----

  /** The states that end the wait with failure. */
  predicate Failed(state: string) {
    state == "error" || state == "deleted" || state == "failed"
  }

  /** A state that ends the wait. */
  predicate Stops(state: string) {
    state == "finished" || Failed(state)
  }

  function Min(a: real, b: real): real {
    if a <= b then a else b
  }

  /** The sleep after poll `i`: 2 seconds, then half as long again each time, capped at 10. */
  function Interval(i: nat): real {
    if i == 0 then 2.0 else Min(10.0, Interval(i - 1) * 1.5)
  }

  /** The interval never drops below 2 seconds and never exceeds 10. */
  lemma {:induction false} IntervalBounds(i: nat)
    ensures 2.0 <= Interval(i) <= 10.0
  {
    if i > 0 {
      IntervalBounds(i - 1);
    }
  }

  /** The interval never decreases. */
  lemma IntervalMonotone(i: nat)
    ensures Interval(i) <= Interval(i + 1)
  {
    IntervalBounds(i);
  }

  /** The back-off reaches its cap after four sleeps. */
  lemma IntervalValues()
    ensures Interval(0) == 2.0 && Interval(1) == 3.0 && Interval(2) == 4.5
    ensures Interval(3) == 6.75 && Interval(4) == 10.0 && Interval(5) == 10.0
  {
  }

  /** The time elapsed when the loop condition is tested after `k` polls. */
  function Elapsed(k: nat, pollCost: nat -> real): real {
    if k == 0 then 0.0 else Elapsed(k - 1, pollCost) + pollCost(k - 1) + Interval(k - 1)
  }

  ghost predicate NonNegativeCosts(pollCost: nat -> real) {
    forall i :: pollCost(i) >= 0.0
  }

  /** Each poll and sleep moves the clock on by at least 2 seconds. */
  lemma {:induction false} ElapsedGrows(k: nat, pollCost: nat -> real)
    requires NonNegativeCosts(pollCost)
    ensures Elapsed(k, pollCost) >= 2.0 * k as real
  {
    if k > 0 {
      ElapsedGrows(k - 1, pollCost);
      IntervalBounds(k - 1);
      assert pollCost(k - 1) >= 0.0;
    }
  }

  /**
   * `_wait_for_job(job_id, timeout)`: poll `listing(i)` for the i-th status
   * query, each taking `pollCost(i)` seconds and followed by a sleep of
   * `Interval(i)`, while less than `timeout` seconds have passed.
   */
  method WaitForJob(listing: nat -> Attempt<ListResponse>, pollCost: nat -> real, timeout: int)
    returns (finished: bool, polls: nat)
    requires NonNegativeCosts(pollCost)
    ensures forall i :: 0 <= i < polls ==> Elapsed(i, pollCost) < timeout as real
    ensures forall i :: 0 <= i < polls - 1 ==> !Stops(JobStatus(listing(i)))
    ensures finished <==> polls > 0 && JobStatus(listing(polls - 1)) == "finished"
    ensures polls == 0 || !Stops(JobStatus(listing(polls - 1))) ==> Elapsed(polls, pollCost) >= timeout as real
    ensures polls > 0 ==> 2 * (polls - 1) < timeout
  {
    var elapsed := 0.0;
    var pollingInterval := 2.0;
    polls := 0;
    while elapsed < timeout as real
      invariant elapsed == Elapsed(polls, pollCost) && pollingInterval == Interval(polls)
      invariant forall i :: 0 <= i < polls ==> Elapsed(i, pollCost) < timeout as real
      invariant forall i :: 0 <= i < polls ==> !Stops(JobStatus(listing(i)))
      decreases timeout - elapsed.Floor
    {
      var status := JobStatus(listing(polls));
      ElapsedGrows(polls, pollCost);
      if status == "finished" {
        return true, polls + 1;
      } else if Failed(status) {
        return false, polls + 1;
      }
      IntervalBounds(polls);
      assert pollCost(polls) >= 0.0;
      elapsed := elapsed + pollCost(polls) + pollingInterval;
      pollingInterval := Min(10.0, pollingInterval * 1.5);
      polls := polls + 1;
    }
    if polls > 0 {
      ElapsedGrows(polls - 1, pollCost);
    }
    return false, polls;
  }

  // ----- _get_job_items -----

  /** The storage id: `<project>/<job>` unless the job id already holds a '/'. */
  function StorageJobId(projectId: string, jobId: string): (id: string)
    ensures '/' in id
    ensures |jobId| <= |id| && id[|id| - |jobId|..] == jobId
    ensures '/' in jobId ==> id == jobId
    ensures '/' !in jobId ==>
      |id| == |projectId| + 1 + |jobId| && id[..|projectId|] == projectId && id[|projectId|] == '/'
  {
    if '/' in jobId then jobId
    else
      var id := projectId + "/" + jobId;
      assert id[|projectId|] == '/';
      id
  }

  /** The items response: status code and body text. */
  datatype ItemsResponse = ItemsResponse(status: int, text: string)

  /** The item one line contributes: none if blank or not JSON, else the parsed value. */
  function LineItem(line: string, parse: string -> Option<Json.Value>): seq<Json.Value> {
    if Strip(line) == [] then []
    else match parse(line)
      case Some(v) => [v]
      case None => []
  }

  function LineItems(parse: string -> Option<Json.Value>): string -> seq<Json.Value> {
    line => LineItem(line, parse)
  }

  /** The items parsed from the lines, in line order. */
  function ParseLines(lines: seq<string>, parse: string -> Option<Json.Value>): (items: seq<Json.Value>) {
    FlatMap(lines, LineItems(parse))
  }

  /** The items of consecutive blocks of lines are the items of each block, in order. */
  lemma ParseLinesAppend(a: seq<string>, b: seq<string>, parse: string -> Option<Json.Value>)
    ensures ParseLines(a + b, parse) == ParseLines(a, parse) + ParseLines(b, parse)
  {
    FlatMapAppend(a, b, LineItems(parse));
  }

  /** One more line adds its own item, if any. */
  lemma ParseLinesSnoc(lines: seq<string>, k: nat, parse: string -> Option<Json.Value>)
    requires k < |lines|
    ensures ParseLines(lines[..k + 1], parse) == ParseLines(lines[..k], parse) + LineItem(lines[k], parse)
  {
    assert lines[..k + 1] == lines[..k] + [lines[k]];
    ParseLinesAppend(lines[..k], [lines[k]], parse);
    FlatMapOne(lines[k], LineItems(parse));
  }

  /** Every line gives at most one item. */
  lemma {:induction false} ParseLinesLength(lines: seq<string>, parse: string -> Option<Json.Value>)
    ensures |ParseLines(lines, parse)| <= |lines|
    decreases |lines|
  {
    if lines != [] {
      ParseLinesLength(lines[..|lines| - 1], parse);
    }
  }

  /** A blank line is skipped; a line that does not parse is skipped; others give one item. */
  lemma ParseOneLine(line: string, parse: string -> Option<Json.Value>)
    ensures AllSpace(line) ==> ParseLines([line], parse) == []
    ensures !AllSpace(line) && parse(line).None? ==> ParseLines([line], parse) == []
    ensures !AllSpace(line) && parse(line).Some? ==> ParseLines([line], parse) == [parse(line).value]
  {
    StripEmpty(line);
    FlatMapOne(line, LineItems(parse));
  }

  /** The lines of the response body: the stripped text split at every newline. */
  function BodyLines(text: string): (lines: seq<string>)
    ensures |lines| >= 1
    ensures Join("\n", lines) == Strip(text)
  {
    SplitOnJoin(Strip(text), "\n");
    SplitOn(Strip(text), "\n")
  }

  /** `_get_job_items(job_id)`: requests the items of the storage job id. */
  method GetJobItems(projectId: string, jobId: string,
                     fetch: string -> Attempt<ItemsResponse>,
                     parse: string -> Option<Json.Value>)
    returns (items: seq<Json.Value>)
    ensures fetch(StorageJobId(projectId, jobId)).Raised? ==> items == []
    ensures fetch(StorageJobId(projectId, jobId)).Returned? ==>
      var response := fetch(StorageJobId(projectId, jobId)).value;
      items == if response.status == 200 then ParseLines(BodyLines(response.text), parse) else []
  {
    var storageJobId := if '/' !in jobId then projectId + "/" + jobId else jobId;
    var outcome := fetch(storageJobId);
    if outcome.Raised? {
      return [];
    }
    var response := outcome.value;
    if response.status != 200 {
      return [];
    }
    assert storageJobId == StorageJobId(projectId, jobId);
    items := ParseItems(SplitOn(Strip(response.text), "\n"), parse);
  }

  /** The loop of `_get_job_items` over the lines of a 200 response. */
  method ParseItems(lines: seq<string>, parse: string -> Option<Json.Value>) returns (items: seq<Json.Value>)
    ensures items == ParseLines(lines, parse)
  {
    items := [];
    var k := 0;
    while k < |lines|
      invariant 0 <= k <= |lines|
      invariant items == ParseLines(lines[..k], parse)
    {
      var line := lines[k];
      ParseLinesSnoc(lines, k, parse);
      if Strip(line) != [] {
        match parse(line)
        case Some(v) =>
          items := items + [v];
        case None =>
      }
      k := k + 1;
    }
    assert lines[..k] == lines;
  }
}
