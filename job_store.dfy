/**
 * `JobStore` of `job_store.py`: the table of background jobs, one
 * dictionary per job id, with creation, lookup, field updates, the
 * status transitions and the age sweep. `time.time()` is the `now`
 * argument of each operation.
 */
module JobStore {
  import opened Wrappers
  import opened Json

  /** One job: its dictionary of fields. */
  type Job = map<string, Value>

  /** The job has field `key`, holding `v`. */
  predicate Holds(job: Job, key: string, v: Value) {
    key in job && job[key] == v
  }

  /** Seconds in an hour. */
  const HourSeconds := 60 * 60

  /**
   * The dictionary `create_job` stores: status, both time stamps and
   * progress 0, then the keyword arguments, which win over the defaults
   * they repeat.
   */
  function Fresh(status: string, extra: Job, now: real): Job
    requires "status" !in extra
  {
    map["status" := Str(status), "created_at" := Float(now), "updated_at" := Float(now), "progress" := Int(0)] + extra
  }

  /** `job.update(fields)` followed by the new `updated_at`. */
  function Updated(job: Job, fields: Job, now: real): Job {
    (job + fields)["updated_at" := Float(now)]
  }

  /** What `set_job_status` writes: status, time stamp, and progress only when given. */
  function WithStatus(job: Job, status: string, progress: Option<int>, now: real): Job {
    var stamped := job["status" := Str(status)]["updated_at" := Float(now)];
    if progress.Some? then stamped["progress" := Int(progress.value)] else stamped
  }

  /** What `set_job_completed` writes. */
  function Completed(job: Job, result: Value, now: real): Job {
    job["status" := Str("completed")]["result" := result]["progress" := Int(100)]["updated_at" := Float(now)]
  }

  /** What `set_job_failed` writes. */
  function Failed(job: Job, error: string, now: real): Job {
    job["status" := Str("failed")]["error" := Str(error)]["updated_at" := Float(now)]
  }

  // ----- Field by field -----

  /** A created job: its status, the default stamps and progress unless the keyword arguments name them, and those arguments. */
  lemma FreshField(status: string, extra: Job, now: real, k: string)
    requires "status" !in extra
    ensures k in Fresh(status, extra, now) <==> k in {"status", "created_at", "updated_at", "progress"} || k in extra
    ensures k == "status" ==> Fresh(status, extra, now)[k] == Str(status)
    ensures k in extra ==> Fresh(status, extra, now)[k] == extra[k]
    ensures k !in extra && (k == "created_at" || k == "updated_at") ==> Fresh(status, extra, now)[k] == Float(now)
    ensures k !in extra && k == "progress" ==> Fresh(status, extra, now)[k] == Int(0)
  {
  }

  /** An update overwrites exactly the named fields and the time stamp. */
  lemma UpdatedField(job: Job, fields: Job, now: real, k: string)
    ensures k in Updated(job, fields, now) <==> k in job || k in fields || k == "updated_at"
    ensures k == "updated_at" ==> Updated(job, fields, now)[k] == Float(now)
    ensures k != "updated_at" && k in fields ==> Updated(job, fields, now)[k] == fields[k]
    ensures k != "updated_at" && k !in fields && k in job ==> Updated(job, fields, now)[k] == job[k]
  {
  }

  /** A status change touches the status, the time stamp, and the progress only when one is given. */
  lemma WithStatusField(job: Job, status: string, progress: Option<int>, now: real, k: string)
    ensures k in WithStatus(job, status, progress, now) <==>
      k in job || k == "status" || k == "updated_at" || (k == "progress" && progress.Some?)
    ensures k == "status" ==> WithStatus(job, status, progress, now)[k] == Str(status)
    ensures k == "updated_at" ==> WithStatus(job, status, progress, now)[k] == Float(now)
    ensures k == "progress" && progress.Some? ==> WithStatus(job, status, progress, now)[k] == Int(progress.value)
    ensures k in job && k != "status" && k != "updated_at" && (k != "progress" || progress.None?) ==>
      WithStatus(job, status, progress, now)[k] == job[k]
  {
  }

  /** Completion sets status, result, progress 100 and the time stamp, and keeps every other field. */
  lemma CompletedField(job: Job, result: Value, now: real, k: string)
    ensures k in Completed(job, result, now) <==> k in job || k in {"status", "result", "progress", "updated_at"}
    ensures k == "status" ==> Completed(job, result, now)[k] == Str("completed")
    ensures k == "result" ==> Completed(job, result, now)[k] == result
    ensures k == "progress" ==> Completed(job, result, now)[k] == Int(100)
    ensures k == "updated_at" ==> Completed(job, result, now)[k] == Float(now)
    ensures k in job && k !in {"status", "result", "progress", "updated_at"} ==> Completed(job, result, now)[k] == job[k]
  {
  }

  /** Failure sets status, error and the time stamp; progress and result are left as they were. */
  lemma FailedField(job: Job, error: string, now: real, k: string)
    ensures k in Failed(job, error, now) <==> k in job || k in {"status", "error", "updated_at"}
    ensures k == "status" ==> Failed(job, error, now)[k] == Str("failed")
    ensures k == "error" ==> Failed(job, error, now)[k] == Str(error)
    ensures k == "updated_at" ==> Failed(job, error, now)[k] == Float(now)
    ensures k in job && k !in {"status", "error", "updated_at"} ==> Failed(job, error, now)[k] == job[k]
  {
  }

  /**
   * `now - job.get("updated_at", 0)`, or `None` when the stored value is
   * not a number and the subtraction raises `TypeError`.
   */
  function Age(job: Job, now: real): (r: Option<real>)
    ensures "updated_at" !in job ==> r == Some(now)
    ensures "updated_at" in job ==> (r.Some? <==> IsNumber(job["updated_at"]))
  {
    var stamp := Get(job, "updated_at", Int(0));
    if IsNumber(stamp) then Some(now - AsReal(stamp)) else None
  }

  /** The sweep removes a job older than the limit. */
  predicate Stale(job: Job, now: real, maxAgeHours: int) {
    var age := Age(job, now);
    age.Some? && age.value > (maxAgeHours * HourSeconds) as real
  }

  /** Every job's age can be computed, so the sweep does not raise. */
  predicate Sweepable(jobs: map<string, Job>, now: real) {
    forall id :: id in jobs ==> Age(jobs[id], now).Some?
  }

  /** The jobs the sweep keeps. */
  function Kept(jobs: map<string, Job>, now: real, maxAgeHours: int): (r: map<string, Job>)
    ensures forall id :: id in r <==> id in jobs && !Stale(jobs[id], now, maxAgeHours)
    ensures forall id :: id in r ==> r[id] == jobs[id]
  {
    map id | id in jobs && !Stale(jobs[id], now, maxAgeHours) :: jobs[id]
  }

  /** The module-level `jobs` table behind the static methods of `JobStore`. */
  class JobStore {
    var jobs: map<string, Job>

    constructor()
      ensures jobs == map[]
    {
      jobs := map[];
    }

    /** `create_job(job_id, status, **extra)`: replaces any job with that id. */
    method CreateJob(jobId: string, status: string, extra: Job, now: real) returns (job: Job)
      requires "status" !in extra
      modifies this
      ensures jobs == old(jobs)[jobId := Fresh(status, extra, now)]
      ensures job == jobs[jobId]
    {
      jobs := jobs[jobId := map["status" := Str(status), "created_at" := Float(now),
                                "updated_at" := Float(now), "progress" := Int(0)] + extra];
      job := jobs[jobId];
    }

    /** `get_job(job_id)`. */
    function GetJob(jobId: string): (r: Option<Job>)
      reads this
      ensures r.None? <==> jobId !in jobs
      ensures r.Some? ==> r.value == jobs[jobId]
    {
      if jobId in jobs then Some(jobs[jobId]) else None
    }

    /** `update_job(job_id, **fields)`: `None`, and no change, for an unknown id. */
    method UpdateJob(jobId: string, fields: Job, now: real) returns (r: Option<Job>)
      modifies this
      ensures jobId !in old(jobs) ==> r.None? && jobs == old(jobs)
      ensures jobId in old(jobs) ==>
        jobs == old(jobs)[jobId := Updated(old(jobs)[jobId], fields, now)] && r == Some(jobs[jobId])
    {
      if jobId !in jobs {
        return None;
      }
      jobs := jobs[jobId := jobs[jobId] + fields];
      jobs := jobs[jobId := jobs[jobId]["updated_at" := Float(now)]];
      return Some(jobs[jobId]);
    }

    /** `set_job_status(job_id, status, progress)`. */
    method SetJobStatus(jobId: string, status: string, progress: Option<int>, now: real)
      modifies this
      ensures jobId !in old(jobs) ==> jobs == old(jobs)
      ensures jobId in old(jobs) ==> jobs == old(jobs)[jobId := WithStatus(old(jobs)[jobId], status, progress, now)]
    {
      if jobId !in jobs {
        return;
      }
      jobs := jobs[jobId := jobs[jobId]["status" := Str(status)]];
      jobs := jobs[jobId := jobs[jobId]["updated_at" := Float(now)]];
      if progress.Some? {
        jobs := jobs[jobId := jobs[jobId]["progress" := Int(progress.value)]];
      }
    }

    /** `set_job_completed(job_id, result)`. */
    method SetJobCompleted(jobId: string, result: Value, now: real)
      modifies this
      ensures jobId !in old(jobs) ==> jobs == old(jobs)
      ensures jobId in old(jobs) ==> jobs == old(jobs)[jobId := Completed(old(jobs)[jobId], result, now)]
    {
      if jobId !in jobs {
        return;
      }
      jobs := jobs[jobId := jobs[jobId]["status" := Str("completed")]];
      jobs := jobs[jobId := jobs[jobId]["result" := result]];
      jobs := jobs[jobId := jobs[jobId]["progress" := Int(100)]];
      jobs := jobs[jobId := jobs[jobId]["updated_at" := Float(now)]];
    }

    /** `set_job_failed(job_id, error)`. */
    method SetJobFailed(jobId: string, error: string, now: real)
      modifies this
      ensures jobId !in old(jobs) ==> jobs == old(jobs)
      ensures jobId in old(jobs) ==> jobs == old(jobs)[jobId := Failed(old(jobs)[jobId], error, now)]
    {
      if jobId !in jobs {
        return;
      }
      jobs := jobs[jobId := jobs[jobId]["status" := Str("failed")]];
      jobs := jobs[jobId := jobs[jobId]["error" := Str(error)]];
      jobs := jobs[jobId := jobs[jobId]["updated_at" := Float(now)]];
    }

    /**
     * `cleanup_old_jobs(max_age_hours)`: collect the stale ids, then
     * delete them. `raised` reports the `TypeError` of a job whose
     * `updated_at` is not a number; it comes before any deletion.
     */
    method CleanupOldJobs(maxAgeHours: int, now: real) returns (raised: bool)
      modifies this
      ensures raised <==> !Sweepable(old(jobs), now)
      ensures raised ==> jobs == old(jobs)
      ensures !raised ==> jobs == Kept(old(jobs), now, maxAgeHours)
    {
      var toRemove := StaleIds(jobs, now, maxAgeHours);
      if toRemove.None? {
        return true;
      }
      var left := toRemove.value;
      while left != {}
        invariant left <= toRemove.value
        invariant forall id :: id in jobs <==> id in old(jobs) && (id !in toRemove.value || id in left)
        invariant forall id :: id in jobs ==> jobs[id] == old(jobs)[id]
        decreases |left|
      {
        var id :| id in left;
        jobs := jobs - {id};
        left := left - {id};
      }
      return false;
    }
  }

  /**
   * The first loop of `cleanup_old_jobs`: the ids of the stale jobs, or
   * `None` when some job's age cannot be computed.
   */
  method StaleIds(jobs: map<string, Job>, now: real, maxAgeHours: int) returns (toRemove: Option<set<string>>)
    ensures toRemove.None? <==> !Sweepable(jobs, now)
    ensures toRemove.Some? ==> forall id :: id in toRemove.value <==> id in jobs && Stale(jobs[id], now, maxAgeHours)
  {
    var pending := jobs.Keys;
    var found: set<string> := {};
    while pending != {}
      invariant pending <= jobs.Keys
      invariant forall id :: id in jobs && id !in pending ==> Age(jobs[id], now).Some?
      invariant forall id :: id in found <==> id in jobs && id !in pending && Stale(jobs[id], now, maxAgeHours)
      decreases |pending|
    {
      var id :| id in pending;
      var age := Age(jobs[id], now);
      if age.None? {
        return None;
      }
      if age.value > (maxAgeHours * HourSeconds) as real {
        found := found + {id};
      }
      pending := pending - {id};
    }
    return Some(found);
  }

  // ----- What the table promises -----

  /** The sweep is idempotent: a second sweep at the same time removes nothing more. */
  lemma {:induction false} KeptIdempotent(jobs: map<string, Job>, now: real, maxAgeHours: int)
    ensures Kept(Kept(jobs, now, maxAgeHours), now, maxAgeHours) == Kept(jobs, now, maxAgeHours)
  {
    var once := Kept(jobs, now, maxAgeHours);
    var twice := Kept(once, now, maxAgeHours);
    assert forall id :: id in twice <==> id in once;
    assert twice.Keys == once.Keys;
  }

  /** A job just stamped at `now` survives any sweep at `now` with a non-negative limit. */
  lemma StampedSurvives(jobs: map<string, Job>, now: real, maxAgeHours: nat, id: string, fields: Job)
    requires id in jobs
    ensures var stamped := jobs[id := Updated(jobs[id], fields, now)];
      id in Kept(stamped, now, maxAgeHours)
  {
    var stamped := jobs[id := Updated(jobs[id], fields, now)];
    assert Age(stamped[id], now) == Some(0.0);
  }
}
