/**
 * `SpiderQueue` of `spider_queue.py`: a FIFO of spider tasks consumed by
 * one background worker, which records for each task a "running" entry
 * and then its completion or failure, plus the clean-up of old entries.
 *
 * The worker coroutine is modelled by its steps: `TakeNext` is one
 * return from `queue.get()` (with the "running" record written after
 * the rate-limiting sleep) and `FinishTask` is the end of one task
 * followed by the loop's `while self._running` test. The awaited
 * `func(*args, **kwargs)` is the `outcome` argument, `time.time()` the
 * `now` argument and `uuid.uuid4()` the `id` argument.
 */
module SpiderQueue {
  import opened Wrappers
  import opened Json
  import opened Lists

  /** A call `func(*args, **kwargs)`, with the coroutine function named. */
  datatype Call = Call(func: string, args: seq<Value>, kwargs: map<string, Value>)

  /** An enqueued `(task_id, func, args, kwargs)`. */
  datatype Task = Task(id: string, call: Call)

  /** A queue entry: a task, or the `None` stop signal. */
  type Item = Option<Task>

  /** An entry of `self.results`. */
  datatype Record =
    | Running(startTime: real)
    | Completed(endTime: real, result: Value)
    | Failed(endTime: real, error: string)

  /** Where the worker coroutine is. */
  datatype Worker =
    | Idle                 // no worker, or it has returned
    | Waiting              // in `await self.queue.get()`
    | Busy(task: Task)     // running `task`

  /** The queue's state. */
  datatype State = State(queue: seq<Item>, results: map<string, Record>, running: bool, worker: Worker)

  /** `SpiderQueue()`: nothing queued, no results, no worker. */
  const Initial := State([], map[], false, Idle)

  /** A queue entry that is a task. */
  function IsTask(): Item -> bool {
    (i: Item) => i.Some?
  }

  /** No stop signal is waiting in the queue. */
  predicate OnlyTasks(q: seq<Item>) {
    forall k :: 0 <= k < |q| ==> q[k].Some?
  }

  /**
   * `start()` as written: when not running, set the flag and launch a
   * worker, leaving the queue as it is.
   */
  function StartedAsWritten(s: State): (r: State)
    ensures r.queue == s.queue && r.results == s.results
    ensures !s.running ==> r.running && r.worker == Waiting
    ensures s.running ==> r == s
  {
    if s.running then s else s.(running := true, worker := Waiting)
  }

  /**
   * `start()` as intended: the same, except that stop signals left over
   * from an earlier `stop()` are dropped, so the new worker does not
   * end on one of them.
   */
  function Started(s: State): (r: State)
    ensures !s.running ==> r.running && r.worker == Waiting && OnlyTasks(r.queue)
  {
    if s.running then s else s.(running := true, worker := Waiting, queue := Filter(s.queue, IsTask()))
  }

  /**
   * The two versions of `start()` differ only in the queue: as written, a
   * stop signal left in the queue stays there for the new worker to take;
   * as intended, the signals are gone and the queued spider tasks stay in order.
   */
  lemma StartVersionsDiffer(s: State)
    requires !s.running
    ensures Started(s) == StartedAsWritten(s).(queue := Filter(s.queue, IsTask()))
    ensures None in s.queue ==> None in StartedAsWritten(s).queue && None !in Started(s).queue
    ensures forall t :: Some(t) in s.queue <==> Some(t) in Started(s).queue
  {
    FilterKeeps(s.queue, IsTask(), None);
    forall t ensures Some(t) in s.queue <==> Some(t) in Started(s).queue {
      FilterKeeps(s.queue, IsTask(), Some(t));
    }
  }

  /** `stop()`: when running, clear the flag and enqueue the stop signal. */
  function Stopped(s: State): State {
    if s.running then s.(running := false, queue := s.queue + [None]) else s
  }

  /** `add_task(func, *args, **kwargs)` whose id is `id`. */
  function Added(s: State, id: string, call: Call): State {
    s.(queue := s.queue + [Some(Task(id, call))])
  }

  /**
   * The waiting worker takes the head of the queue: the stop signal ends
   * it, a task is recorded as running since `now`.
   */
  function Taken(s: State, now: real): State {
    if s.worker != Waiting || s.queue == [] then s
    else
      match s.queue[0]
      case None => s.(queue := s.queue[1..], worker := Idle)
      case Some(t) => s.(queue := s.queue[1..], worker := Busy(t), results := s.results[t.id := Running(now)])
  }

  /** The record a task's outcome leaves at time `now`. */
  function Outcome(outcome: Attempt<Value>, now: real): Record {
    match outcome
    case Returned(v) => Completed(now, v)
    case Raised(e) => Failed(now, e)
  }

  /**
   * The busy worker's task ends with `outcome` at `now`; the worker then
   * waits for the next entry, or returns when the flag is clear.
   */
  function Finished(s: State, outcome: Attempt<Value>, now: real): State {
    if !s.worker.Busy? then s
    else s.(results := s.results[s.worker.task.id := Outcome(outcome, now)],
            worker := if s.running then Waiting else Idle)
  }

  /** `get_result(task_id)`: `self.results.get(task_id)`. */
  function Lookup(results: map<string, Record>, id: string): (r: Option<Record>)
    ensures r.None? <==> id !in results
    ensures r.Some? ==> r.value == results[id]
  {
    if id in results then Some(results[id]) else None
  }

  /** A finished record older than `maxAgeSeconds` at `now`. */
  predicate Expired(r: Record, now: real, maxAgeSeconds: int) {
    (r.Completed? || r.Failed?) && now - r.endTime > maxAgeSeconds as real
  }

  /** The results `cleanup_old_results(max_age_hours)` keeps at `now`. */
  function Cleaned(results: map<string, Record>, now: real, maxAgeHours: int): map<string, Record> {
    map k | k in results && !Expired(results[k], now, maxAgeHours * 60 * 60) :: results[k]
  }

  /**
   * While the flag is set a worker is alive and no stop signal is
   * queued, so every queued task is eventually taken.
   */
  predicate Healthy(s: State) {
    s.running ==> s.worker != Idle && OnlyTasks(s.queue)
  }

  /** The singleton `spider_queue`. */
  class SpiderQueue {
    var queue: seq<Item>
    var results: map<string, Record>
    var running: bool
    var worker: Worker

    /** The state the fields hold. */
    function Snapshot(): State
      reads this
    {
      State(queue, results, running, worker)
    }

    constructor ()
      ensures Snapshot() == Initial
    {
      queue := [];
      results := map[];
      running := false;
      worker := Idle;
    }

    /** `start()`, leaving out the stop signals an earlier `stop()` left behind. */
    method Start()
      modifies this
      ensures Snapshot() == Started(old(Snapshot()))
    {
      if !running {
        running := true;
        queue := Filter(queue, IsTask());
        worker := Waiting;
      }
    }

    /** `stop()`, up to the await of the worker, which `FinishTask` and `TakeNext` model. */
    method Stop()
      modifies this
      ensures Snapshot() == Stopped(old(Snapshot()))
    {
      if running {
        running := false;
        queue := queue + [None];
      }
    }

    /** `add_task(func, *args, **kwargs)` drawing the id `id`. */
    method AddTask(id: string, call: Call) returns (taskId: string)
      modifies this
      ensures taskId == id
      ensures Snapshot() == Added(old(Snapshot()), id, call)
    {
      queue := queue + [Some(Task(id, call))];
      taskId := id;
    }

    /** One return from the worker's `queue.get()`, when the worker waits and an entry is there. */
    method TakeNext(now: real)
      modifies this
      ensures Snapshot() == Taken(old(Snapshot()), now)
    {
      if worker != Waiting || queue == [] {
        return;
      }
      var item := queue[0];
      queue := queue[1..];
      if item.None? {
        worker := Idle;
        return;
      }
      var task := item.value;
      results := results[task.id := Running(now)];
      worker := Busy(task);
    }

    /** The end of the busy worker's task and the loop's next test of the flag. */
    method FinishTask(outcome: Attempt<Value>, now: real)
      modifies this
      ensures Snapshot() == Finished(old(Snapshot()), outcome, now)
    {
      if !worker.Busy? {
        return;
      }
      var id := worker.task.id;
      if outcome.Returned? {
        results := results[id := Completed(now, outcome.value)];
      } else {
        results := results[id := Failed(now, outcome.message)];
      }
      if !running {
        worker := Idle;
      } else {
        worker := Waiting;
      }
    }

    /** `get_result(task_id)`. */
    method GetResult(id: string) returns (r: Option<Record>)
      ensures r == Lookup(results, id)
    {
      if id in results {
        r := Some(results[id]);
      } else {
        r := None;
      }
    }

    /** `cleanup_old_results(max_age_hours)` at time `now`. */
    method CleanupOldResults(now: real, maxAgeHours: int)
      modifies this
      ensures results == Cleaned(old(results), now, maxAgeHours)
      ensures queue == old(queue) && running == old(running) && worker == old(worker)
    {
      var maxAgeSeconds := maxAgeHours * 60 * 60;
      var toRemove: set<string> := {};
      var pending := results.Keys;
      while pending != {}
        invariant pending <= results.Keys
        invariant results == old(results)
        invariant queue == old(queue) && running == old(running) && worker == old(worker)
        invariant toRemove == set k | k in results.Keys - pending && Expired(results[k], now, maxAgeSeconds)
        decreases pending
      {
        var k :| k in pending;
        if Expired(results[k], now, maxAgeSeconds) {
          toRemove := toRemove + {k};
        }
        pending := pending - {k};
      }
      assert toRemove == set k | k in old(results) && Expired(old(results)[k], now, maxAgeSeconds);
      var removing := toRemove;
      while removing != {}
        invariant removing <= toRemove
        invariant queue == old(queue) && running == old(running) && worker == old(worker)
        invariant results == map k | k in old(results) && k !in toRemove - removing :: old(results)[k]
        decreases removing
      {
        var k :| k in removing;
        results := results - {k};
        removing := removing - {k};
      }
    }
  }

  // ----- Properties -----

  /** `start()` does nothing while running and twice is once. */
  lemma StartIdempotent(s: State)
    ensures s.running ==> Started(s) == s
    ensures Started(Started(s)) == Started(s)
  {
  }

  /** `stop()` does nothing unless running; then it clears the flag and enqueues one stop signal last. */
  lemma StopEffect(s: State)
    ensures !s.running ==> Stopped(s) == s
    ensures s.running ==> !Stopped(s).running && Stopped(s).queue == s.queue + [None]
                          && Stopped(s).results == s.results && Stopped(s).worker == s.worker
  {
  }

  /**
   * The queue is first in, first out: a task added behind a non-empty
   * queue does not change which entry the worker takes next.
   */
  lemma FifoOrder(s: State, id: string, call: Call, now: real)
    requires s.queue != []
    ensures Taken(Added(s, id, call), now) == Added(Taken(s, now), id, call)
  {
    assert (s.queue + [Some(Task(id, call))])[1..] == s.queue[1..] + [Some(Task(id, call))];
  }

  /** Taking a task records it as running and makes the worker busy with it. */
  lemma TakeRecordsRunning(s: State, now: real)
    requires s.worker == Waiting && s.queue != [] && s.queue[0].Some?
    ensures Taken(s, now).worker == Busy(s.queue[0].value)
    ensures Lookup(Taken(s, now).results, s.queue[0].value.id) == Some(Running(now))
    ensures forall id :: id != s.queue[0].value.id ==> Lookup(Taken(s, now).results, id) == Lookup(s.results, id)
    ensures Taken(s, now).queue == s.queue[1..]
  {
  }

  /**
   * A task's running record is replaced by exactly one of a completion
   * holding its result or a failure holding the error, timed at its
   * end; no other record changes.
   */
  lemma FinishRecordsOutcome(s: State, outcome: Attempt<Value>, now: real)
    requires s.worker.Busy?
    ensures outcome.Returned? ==> Lookup(Finished(s, outcome, now).results, s.worker.task.id) == Some(Completed(now, outcome.value))
    ensures outcome.Raised? ==> Lookup(Finished(s, outcome, now).results, s.worker.task.id) == Some(Failed(now, outcome.message))
    ensures forall id :: id != s.worker.task.id ==> Lookup(Finished(s, outcome, now).results, id) == Lookup(s.results, id)
    ensures Finished(s, outcome, now).worker == (if s.running then Waiting else Idle)
  {
  }

  /** A task whose result is recorded has been taken: adding it records nothing. */
  lemma AddRecordsNothing(s: State, id: string, call: Call, other: string)
    ensures Lookup(Added(s, id, call).results, other) == Lookup(s.results, other)
  {
  }

  /** Clean-up removes exactly the finished records older than the limit. */
  lemma CleanedExactly(results: map<string, Record>, now: real, maxAgeHours: int, id: string)
    ensures id in Cleaned(results, now, maxAgeHours) <==>
            id in results && !Expired(results[id], now, maxAgeHours * 3600)
    ensures id in Cleaned(results, now, maxAgeHours) ==> Cleaned(results, now, maxAgeHours)[id] == results[id]
  {
  }

  /** A running record is never cleaned up. */
  lemma CleanupKeepsRunning(results: map<string, Record>, now: real, maxAgeHours: int, id: string)
    requires id in results && results[id].Running?
    ensures Lookup(Cleaned(results, now, maxAgeHours), id) == Some(results[id])
  {
  }

  /** Cleaning up twice at the same time is cleaning up once. */
  lemma CleanupIdempotent(results: map<string, Record>, now: real, maxAgeHours: int)
    ensures Cleaned(Cleaned(results, now, maxAgeHours), now, maxAgeHours) == Cleaned(results, now, maxAgeHours)
  {
  }

  /** A new queue is healthy. */
  lemma InitialHealthy()
    ensures Healthy(Initial)
  {
  }

  /** Every step of the intended queue keeps it healthy. */
  lemma {:induction false} StepsKeepHealthy(s: State, id: string, call: Call, outcome: Attempt<Value>, now: real)
    requires Healthy(s)
    ensures Healthy(Started(s)) && Healthy(Stopped(s)) && Healthy(Added(s, id, call))
    ensures Healthy(Taken(s, now)) && Healthy(Finished(s, outcome, now))
  {
    if s.running {
      var q := s.queue + [Some(Task(id, call))];
      assert forall k :: 0 <= k < |q| ==> q[k] == (if k < |s.queue| then s.queue[k] else Some(Task(id, call)));
      if s.worker == Waiting && s.queue != [] {
        assert s.queue[0].Some?;
        assert forall k :: 0 <= k < |s.queue| - 1 ==> s.queue[1..][k] == s.queue[k + 1];
      }
    }
  }

  /**
   * Once the flag is set but no worker is left, nothing ever takes the
   * queued tasks again: `start()`, the worker steps and `add_task` keep
   * the queue stalled.
   */
  lemma StalledStaysStalled(s: State, id: string, call: Call, outcome: Attempt<Value>, now: real)
    requires s.running && s.worker == Idle
    ensures Started(s) == s && StartedAsWritten(s) == s
    ensures Taken(s, now) == s && Finished(s, outcome, now) == s
    ensures Added(s, id, call).running && Added(s, id, call).worker == Idle
  {
  }

  /**
   * With `start()` as written, stopping the queue while a task runs and
   * starting it again leaves the stop signal in the queue; the new worker
   * ends on it, so a task added afterwards is never run although the
   * queue reports itself running.
   */
  lemma {:induction false} RestartAsWrittenStalls(first: Call, second: Call, result: Value)
    ensures var s1 := Taken(Added(StartedAsWritten(Initial), "first", first), 1.0);
            var s2 := Finished(Stopped(s1), Returned(result), 2.0);
            var s3 := Taken(Added(StartedAsWritten(s2), "second", second), 3.0);
            s3.running && s3.worker == Idle && s3.queue == [Some(Task("second", second))]
            && Lookup(s3.results, "second") == None && !Healthy(s3)
  {
  }

  /**
   * With the intended `start()`, the same sequence takes the second task:
   * it is recorded as running.
   */
  lemma {:induction false} RestartIntendedRuns(first: Call, second: Call, result: Value)
    ensures var s1 := Taken(Added(Started(Initial), "first", first), 1.0);
            var s2 := Finished(Stopped(s1), Returned(result), 2.0);
            var s3 := Taken(Added(Started(s2), "second", second), 3.0);
            s3.running && s3.worker == Busy(Task("second", second))
            && Lookup(s3.results, "second") == Some(Running(3.0)) && Healthy(s3)
  {
    var results := map["first" := Completed(2.0, result)];
    RestartFirstHalf(first, result);
    RestartSecondHalf(results, second);
    assert Lookup(results["second" := Running(3.0)], "second") == Some(Running(3.0));
  }

  /** The first run of the intended queue: one task taken, stopped and finished. */
  lemma RestartFirstHalf(first: Call, result: Value)
    ensures var s1 := Taken(Added(Started(Initial), "first", first), 1.0);
            Finished(Stopped(s1), Returned(result), 2.0)
              == State([None], map["first" := Completed(2.0, result)], false, Idle)
  {
    var s0 := Started(Initial);
    assert Filter([], IsTask()) == [];
    assert s0 == State([], map[], true, Waiting);
    var s1 := Taken(Added(s0, "first", first), 1.0);
    assert s1 == State([], map["first" := Running(1.0)], true, Busy(Task("first", first)));
  }

  /** The intended restart drops the stale stop signal, so the next task is taken. */
  lemma RestartSecondHalf(results: map<string, Record>, second: Call)
    ensures Taken(Added(Started(State([None], results, false, Idle)), "second", second), 3.0)
              == State([], results["second" := Running(3.0)], true, Busy(Task("second", second)))
  {
    assert Filter([None], IsTask()) == Filter([], IsTask());
    assert Filter([], IsTask()) == [];
    var s3 := Started(State([None], results, false, Idle));
    assert s3 == State([], results, true, Waiting);
  }
}
