/** The in-memory repositories and the in-memory queue, as objects updated in place. */
module Stores {
  import opened Values
  import opened Engine
  import opened Runs
  import opened Protocol

  class MemoryRepository {
    var runs: map<string, Run>
    var steps: map<string, seq<Step>>
    var pending: map<string, Pending>

    /** Runs are stored under their own identifiers. */
    ghost predicate Valid()
      reads this
    {
      forall id :: id in runs ==> runs[id].id == id
    }

    constructor ()
      ensures Valid() && runs == map[] && steps == map[] && pending == map[]
    {
      runs, steps, pending := map[], map[], map[];
    }

    function StepsOf(runID: string): seq<Step>
      reads this
    {
      if runID in steps then steps[runID] else []
    }

    function PendingOf(runID: string): Option<Pending>
      reads this
    {
      if runID in pending then Some(pending[runID]) else None
    }

    /** Everything stored about the other runs. */
    ghost function Others(runID: string): (map<string, Run>, map<string, seq<Step>>, map<string, Pending>)
      reads this
    {
      (runs - {runID}, steps - {runID}, pending - {runID})
    }

    method CreateRun(run: Run)
      modifies this
      ensures runs == old(runs)[run.id := run] && steps == old(steps) && pending == old(pending)
      ensures Others(run.id) == old(Others(run.id))
    {
      runs := runs[run.id := run];
      assert Others(run.id).0 == old(Others(run.id)).0 && Others(run.id).1 == old(Others(run.id)).1;
      assert Others(run.id).2 == old(Others(run.id)).2;
    }

    method UpdateRun(run: Run)
      modifies this
      ensures runs == old(runs)[run.id := run] && steps == old(steps) && pending == old(pending)
      ensures Others(run.id) == old(Others(run.id))
    {
      runs := runs[run.id := run];
      assert Others(run.id).0 == old(Others(run.id)).0 && Others(run.id).1 == old(Others(run.id)).1;
      assert Others(run.id).2 == old(Others(run.id)).2;
    }

    method CompleteRun(run: Run, runSteps: seq<Step>)
      modifies this
      ensures runs == old(runs)[run.id := run] && steps == old(steps)[run.id := runSteps]
      ensures pending == old(pending) - {run.id}
      ensures Others(run.id) == old(Others(run.id))
    {
      runs := runs[run.id := run];
      steps := steps[run.id := runSteps];
      pending := pending - {run.id};
      assert Others(run.id).0 == old(Others(run.id)).0 && Others(run.id).1 == old(Others(run.id)).1;
      assert Others(run.id).2 == old(Others(run.id)).2;
    }

    method SavePending(run: Run, runSteps: seq<Step>, state: Pending)
      modifies this
      ensures runs == old(runs)[run.id := run] && steps == old(steps)[run.id := runSteps]
      ensures pending == old(pending)[run.id := state]
      ensures Others(run.id) == old(Others(run.id))
    {
      runs := runs[run.id := run];
      steps := steps[run.id := runSteps];
      pending := pending[run.id := state];
      assert Others(run.id).0 == old(Others(run.id)).0 && Others(run.id).1 == old(Others(run.id)).1;
      assert Others(run.id).2 == old(Others(run.id)).2;
    }

    method GetRun(tenantID: string, runID: string) returns (r: Result<Run, string>)
      ensures r == if runID in runs && runs[runID].tenantID == tenantID then Ok(runs[runID])
                   else Err("workflow run not found")
    {
      if runID !in runs || runs[runID].tenantID != tenantID {
        return Err("workflow run not found");
      }
      return Ok(runs[runID]);
    }

    method LoadPending(tenantID: string, runID: string) returns (r: Result<(Run, seq<Step>, Pending), string>)
      ensures r.Ok? <==> runID in runs && runs[runID].tenantID == tenantID && runID in pending
      ensures r.Ok? ==> r.value == (runs[runID], StepsOf(runID), pending[runID])
    {
      var found := GetRun(tenantID, runID);
      if found.Err? {
        return Err(found.error);
      }
      if runID !in pending {
        return Err("workflow run is not awaiting approval");
      }
      return Ok((found.value, StepsOf(runID), pending[runID]));
    }
  }

  class AuditRepository {
    var events: map<string, seq<Event>>

    constructor ()
      ensures events == map[]
    {
      events := map[];
    }

    function LogOf(runID: string): seq<Event>
      reads this
    {
      if runID in events then events[runID] else []
    }

    method Create(runID: string, event: Event)
      modifies this
      ensures events == old(events)[runID := old(LogOf(runID)) + [event]]
      ensures events - {runID} == old(events - {runID})
    {
      events := events[runID := LogOf(runID) + [event]];
    }
  }

  /** A bounded channel and the goroutines that wait to send into it. */
  class MemoryQueue {
    const capacity: nat
    var jobs: seq<Job>
    var timers: map<nat, Timer>
    var started: nat

    ghost predicate Valid()
      reads this
    {
      |jobs| <= capacity && forall t :: t in timers ==> t < started
    }

    constructor (size: int)
      ensures Valid() && jobs == [] && timers == map[]
      ensures capacity == if size <= 0 then 128 else size
    {
      capacity := if size <= 0 then 128 else size;
      jobs, timers, started := [], map[], 0;
    }

    /** A send that goes through; on a full channel the sender waits until there is room. */
    method Enqueue(job: Job)
      requires Valid() && |jobs| < capacity
      modifies this
      ensures Valid() && jobs == old(jobs) + [job] && timers == old(timers)
    {
      jobs := jobs + [job];
    }

    method EnqueueAfter(job: Job, delay: int) returns (timer: nat)
      requires Valid()
      modifies this
      ensures Valid() && jobs == old(jobs)
      ensures timer !in old(timers) && timers == old(timers)[timer := Timer(job, delay)]
    {
      timer := started;
      started := started + 1;
      timers := timers[timer := Timer(job, delay)];
    }

    /** A timer runs out and its goroutine's send goes through. */
    method Fire(timer: nat)
      requires Valid() && timer in timers && |jobs| < capacity
      modifies this
      ensures Valid() && jobs == old(jobs) + [old(timers[timer].job)] && timers == old(timers) - {timer}
    {
      jobs := jobs + [timers[timer].job];
      timers := timers - {timer};
    }

    /** The oldest job, or nothing when the wait runs out. */
    method Dequeue() returns (job: Option<Job>)
      requires Valid()
      modifies this
      ensures Valid() && timers == old(timers)
      ensures if old(jobs) == [] then job == None && jobs == []
              else job == Some(old(jobs)[0]) && jobs == old(jobs)[1..]
    {
      if |jobs| == 0 {
        return None;
      }
      job := Some(jobs[0]);
      jobs := jobs[1..];
    }
  }
}
