/** The scheduled-job poller (src/controllers/scheduled_jobs.ts): a
    scheduler whose ticks poll for pending jobs, as a sequential state
    machine whose ticks begin and end as separate events, and the batch
    accounting of one poll. */
module Scheduler {
  import opened Base
  import opened Model

  class JobScheduler {
    /** `_alive`; `undefined` reads as `false`. */
    var alive: bool
    /** `_numRunning`; `None` while it is `undefined`, which it stays when
        polling is disabled. */
    var numRunning: Option<int>
    /** Whether a cron task exists, and whether it is running. */
    var hasTask: bool
    var taskRunning: bool
    /** Ticks that have begun and not yet ended. */
    ghost var inFlight: nat

    ghost predicate Valid()
      reads this
    {
      (hasTask ==> numRunning == Some(inFlight)) &&
      (!hasTask ==> numRunning.None? && inFlight == 0 && !taskRunning)
    }

    /** The constructor: with polling disabled it returns before touching
        any field; otherwise the counter starts at 0 and a task is created,
        running at once and marking the scheduler alive when `scheduled`. */
    constructor (pollingEnabled: string, scheduled: bool)
      ensures Valid()
      ensures pollingEnabled != "true" ==> !alive && numRunning.None? && !hasTask
      ensures pollingEnabled == "true" ==>
        alive == scheduled && numRunning == Some(0) && hasTask && taskRunning == scheduled
      ensures inFlight == 0
    {
      alive := false;
      numRunning := None;
      hasTask := false;
      taskRunning := false;
      inFlight := 0;
      if pollingEnabled == "true" {
        alive := scheduled;
        numRunning := Some(0);
        hasTask := true;
        taskRunning := scheduled;
      }
    }

    /** A tick starts: `_numRunning++`, before the jitter and the poll. */
    method TickBegin()
      requires Valid() && taskRunning
      modifies this
      ensures Valid()
      ensures numRunning == Some(old(numRunning).value + 1) && inFlight == old(inFlight) + 1
      ensures alive == old(alive) && hasTask == old(hasTask) && taskRunning == old(taskRunning)
    {
      numRunning := Some(numRunning.value + 1);
      inFlight := inFlight + 1;
    }

    /** A tick ends, whether its poll succeeded or threw: the `finally`
        block's `_numRunning--`. The poll's failure is logged and goes no
        further. */
    method TickEnd(poll: Outcome)
      requires Valid() && inFlight > 0
      modifies this
      ensures Valid()
      ensures numRunning == Some(old(numRunning).value - 1) && inFlight == old(inFlight) - 1
      ensures alive == old(alive) && hasTask == old(hasTask) && taskRunning == old(taskRunning)
    {
      numRunning := Some(numRunning.value - 1);
      inFlight := inFlight - 1;
    }

    /** A whole tick with no other tick in between leaves the counter as it
        was, whatever the poll did. */
    method Tick(poll: Outcome)
      requires Valid() && taskRunning
      modifies this
      ensures Valid()
      ensures numRunning == old(numRunning) && inFlight == old(inFlight)
      ensures alive == old(alive) && hasTask == old(hasTask) && taskRunning == old(taskRunning)
    {
      TickBegin();
      TickEnd(poll);
    }

    /** `start`: alive, and the task (if any) running. */
    method Start()
      requires Valid()
      modifies this
      ensures Valid()
      ensures alive && taskRunning == hasTask
      ensures numRunning == old(numRunning) && hasTask == old(hasTask) && inFlight == old(inFlight)
    {
      alive := true;
      if hasTask {
        taskRunning := true;
      }
    }

    /** `stop`: not alive, and the task (if any) stopped; ticks already
        begun still end. */
    method Stop()
      requires Valid()
      modifies this
      ensures Valid()
      ensures !alive && !taskRunning
      ensures numRunning == old(numRunning) && hasTask == old(hasTask) && inFlight == old(inFlight)
    {
      alive := false;
      taskRunning := false;
    }

    /** The condition `join` checks every second, and resolves on: only
        once the scheduler is stopped and no tick is in flight; with
        polling disabled it never holds. */
    predicate CanJoin()
      reads this
      ensures Valid() ==> (CanJoin() <==> hasTask && !alive && inFlight == 0)
      ensures Valid() && !hasTask ==> !CanJoin()
    {
      !alive && numRunning == Some(0)
    }
  }

  /** What one scheduled job gave: its response, or the error it threw. */
  type JobOutcome = Result<ApiExecutionResponse>

  /** `pollScheduledJobs` on the fetched batch (the fetch itself throws out
      of the poll on failure): every job runs; a failed one leaves
      `undefined` in its place and is counted, and does not stop the rest. */
  method PollScheduledJobs(fetched: Result<seq<ApiDefinition>>, run: ApiDefinition -> JobOutcome)
    returns (r: Result<seq<Option<ApiExecutionResponse>>>, success: nat, failure: nat)
    ensures fetched.Err? ==> r == Err(fetched.fault) && success == 0 && failure == 0
    ensures fetched.Ok? ==> r.Ok? && |r.value| == |fetched.value|
    ensures fetched.Ok? ==> success + failure == |fetched.value|
    ensures fetched.Ok? ==> forall i :: 0 <= i < |fetched.value| ==>
      (r.value[i].None? <==> run(fetched.value[i]).Err?) &&
      (run(fetched.value[i]).Ok? ==> r.value[i] == Some(run(fetched.value[i]).value))
    ensures fetched.Ok? ==> failure == |set i | 0 <= i < |fetched.value| && run(fetched.value[i]).Err?|
  {
    success, failure := 0, 0;
    if fetched.Err? {
      return Err(fetched.fault), 0, 0;
    }
    var apiDefs := fetched.value;
    if |apiDefs| == 0 {
      return Ok([]), 0, 0;
    }
    var allJobs: seq<Option<ApiExecutionResponse>> := [];
    ghost var failed: set<int> := {};
    for i := 0 to |apiDefs|
      invariant |allJobs| == i
      invariant success + failure == i
      invariant failed == set j | 0 <= j < i && run(apiDefs[j]).Err?
      invariant failure == |failed|
      invariant forall j :: 0 <= j < i ==>
        (allJobs[j].None? <==> run(apiDefs[j]).Err?) &&
        (run(apiDefs[j]).Ok? ==> allJobs[j] == Some(run(apiDefs[j]).value))
    {
      var result := run(apiDefs[i]);
      if result.Ok? {
        success := success + 1;
        allJobs := allJobs + [Some(result.value)];
        assert (set j | 0 <= j < i + 1 && run(apiDefs[j]).Err?) == failed;
      } else {
        failure := failure + 1;
        allJobs := allJobs + [None];
        assert (set j | 0 <= j < i + 1 && run(apiDefs[j]).Err?) == failed + {i};
        failed := failed + {i};
      }
    }
    r := Ok(allJobs);
  }
}
