/**
 * What a call leaves for others to read, in plain values: the stored run, its steps, its pending record, its log
 * and the retry that is scheduled (`internal/executor/async.go`, `internal/executor/service.go`,
 * `internal/worker/service.go`).
 */
module Observed {
  import opened Text
  import opened Values
  import opened Graphs
  import opened Engine
  import opened StepBodies
  import opened Backoff
  import opened Runs
  import opened Protocol

  /** Every key of `extra` has its value there, every other key the one it has in `base`, and there are no more. */
  ghost predicate Overlays(merged: Fields, base: Fields, extra: Fields) {
    && merged.Keys == base.Keys + extra.Keys
    && (forall k :: k in extra ==> merged[k] == extra[k])
    && (forall k :: k in base && k !in extra ==> merged[k] == base[k])
  }

  lemma MergeOverlays(base: Fields, extra: Fields)
    ensures Overlays(MergeInput(base, extra), base, extra)
  {}

  predicate IsEventOf(e: Event, s: Step) {
    match s.status
    case Completed => e == StepCompletedEvent(s.nodeID)
    case Failed => e == StepFailedEvent(s.nodeID)
    case WaitingApproval => e == StepWaitingEvent(s.nodeID)
  }

  /** One event for each step, by its status. */
  ghost predicate Events(steps: seq<Step>, events: seq<Event>) {
    |events| == |steps| && forall i :: 0 <= i < |steps| ==> IsEventOf(events[i], steps[i])
  }

  /** The log has grown by the events of the steps. */
  ghost predicate Grown(before: seq<Event>, steps: seq<Step>, log: seq<Event>) {
    exists events :: Events(steps, events) && log == before + events
  }

  lemma NotGrown(log: seq<Event>)
    ensures Grown(log, [], log)
  {
    assert Events([], []) && log == log + [];
  }

  lemma GrownSnoc(before: seq<Event>, steps: seq<Step>, log: seq<Event>, s: Step, e: Event)
    requires Grown(before, steps, log) && IsEventOf(e, s)
    ensures Grown(before, steps + [s], log + [e])
  {
    var events :| Events(steps, events) && log == before + events;
    assert Events(steps + [s], events + [e]) && log + [e] == before + (events + [e]);
  }

  /** What a pass from `st` that ended so added to the steps, node by node. */
  ghost predicate Explained(g: Graph, body: Body, input: Fields, st: State, o: Outcome) {
    "" !in g.nodes ==>
      && st.steps <= o.st.steps && Ran(g, body, input, st.stepOutputs, Since(st.steps, o.st.steps), [])
      && FailsByBody(g, body, input, o) && EndsAt(o, |st.steps|)
  }

  lemma ContinueExplained(g: Graph, body: Body, input: Fields, st: State)
    requires g.Valid()
    ensures Explained(g, body, input, st, Continue(g, body, input, st))
  {
    if "" !in g.nodes {
      WalkRan(g, body, input, st, Elements(st.queue), []);
    }
    hide Walk, Ran, FailsByBody, EndsAt;
  }

  /** A turn adds one step, and its event is that step's. */
  lemma TurnGrows(
    g: Graph, st: State, queued: set<string>, result: Result<Value, string>, before: seq<Event>, start: seq<Step>,
    log: seq<Event>, e: Event)
    requires st.queue != [] && start <= st.steps && Grown(before, Since(start, st.steps), log)
    requires var turn, id := TakeTurn(g, st, queued, result, []), g.Node(st.queue[0]).id;
             e == if turn.Go? then StepCompletedEvent(id)
                  else if turn.outcome.Broken? then StepFailedEvent(id) else StepWaitingEvent(id)
    ensures var turn := TakeTurn(g, st, queued, result, []);
            var steps := if turn.Go? then turn.st.steps else turn.outcome.st.steps;
            start <= steps && Grown(before, Since(start, steps), log + [e])
  {
    hide Fresh, Next, Freeze, ApprovalRequest, Grown;
    var turn := TakeTurn(g, st, queued, result, []);
    var steps := if turn.Go? then turn.st.steps else turn.outcome.st.steps;
    assert steps == st.steps + [steps[|st.steps|]];
    assert Since(start, steps) == Since(start, st.steps) + [steps[|st.steps|]];
    GrownSnoc(before, Since(start, st.steps), log, steps[|st.steps|], e);
  }

  /** A pass is recorded between its start and its ending. */
  ghost predicate Recorded(before: seq<Event>, steps: seq<Step>, status: RunStatus, log: seq<Event>) {
    && log != []
    && Grown(before + [RunStartedEvent], steps, log[..|log| - 1])
    && log[|log| - 1] == match status
                         case RunFailed => RunFailedEvent
                         case RunWaitingApproval => RunWaitingEvent
                         case _ => RunCompletedEvent
  }

  lemma PassRecorded(before: seq<Event>, steps: seq<Step>, status: RunStatus, log: seq<Event>)
    requires Grown(before + [RunStartedEvent], steps, log)
    ensures Recorded(before, steps, status, log + [EndEvent(status)])
  {
    assert (log + [EndEvent(status)])[..|log|] == log;
  }

  lemma ShownSteps(rec: Record, o: Outcome)
    requires Shows(rec, o)
    ensures rec.steps == o.st.steps
  {}

  /** The stored run tells how the last of its steps since `before` ended. */
  ghost predicate TellsEnd(before: seq<Step>, rec: Record) {
    && before <= rec.steps
    && if rec.run.status == RunCompleted then
         && rec.pending.None? && (forall i :: |before| <= i < |rec.steps| ==> rec.steps[i].status == Completed)
         && (rec.steps != [] ==>
               var last := rec.steps[|rec.steps| - 1];
               rec.run.output == Object(map["last_node" := Str(last.nodeID), "result" := last.output]))
       else
         before < rec.steps
         && var last := rec.steps[|rec.steps| - 1];
            if rec.run.status == RunFailed then
              && last.status == Failed && rec.run.error == last.error && rec.pending.None?
              && rec.run.output == Object(map["failed_node" := Str(last.nodeID)])
            else
              && rec.run.status == RunWaitingApproval && last.status == WaitingApproval
              && rec.run.output == last.output
              && rec.pending.Some? && rec.pending.value.waitingNodeID == last.nodeID
  }

  /** And these steps are what the bodies of their nodes made of the input and of the outputs before. */
  ghost predicate RanFrom(g: Graph, body: Body, outputs: Fields, before: seq<Step>, rec: Record) {
    TellsEnd(before, rec) && Ran(g, body, rec.run.input, outputs, Since(before, rec.steps), [])
  }

  lemma EndShown(before: seq<Step>, rec: Record, o: Outcome)
    requires Shows(rec, o) && before <= o.st.steps && EndsAt(o, |before|) && (o.Finished? ==> LastTold(o.st))
    ensures TellsEnd(before, rec)
  {}

  lemma ShownRan(g: Graph, body: Body, st: State, rec: Record)
    requires g.Valid() && "" !in g.nodes && LastTold(st) && Shows(rec, Continue(g, body, rec.run.input, st))
    ensures RanFrom(g, body, st.stepOutputs, st.steps, rec)
  {
    ContinueExplained(g, body, rec.run.input, st);
    WalkLast(g, body, rec.run.input, st, Elements(st.queue), []);
    var o := Continue(g, body, rec.run.input, st);
    ShownSteps(rec, o);
    hide Walk, Ran, FailsByBody, EndsAt, Shows, TellsEnd, LastTold;
    EndShown(st.steps, rec, o);
  }

  /** The first backoffs, and their doubling. */
  ghost predicate IsDelay(delay: int, attempt: int) {
    && (attempt <= 1 ==> delay == 50_000_000)
    && (attempt == 2 ==> delay == 100_000_000)
    && (1 <= attempt <= 38 ==> delay == 50_000_000 * Pow2(attempt - 1))
  }

  lemma RetryDelayIs(attempt: int)
    ensures IsDelay(RetryDelay(BASE_BACKOFF, attempt), attempt)
  {
    if attempt >= 1 {
      DelayExact(attempt);
    }
    assert Pow2(1) == 2 && Pow2(0) == 1;
  }

  /** What is made of a run that a job's call has returned: another attempt after a while, or none any more. */
  ghost predicate Settled(was: Record, job: Job, now: Record, dest: Dest) {
    var run := was.run;
    if run.status != RunFailed then now == was && dest == Leave
    else if run.attempt < run.maxAttempts then
      exists delay ::
        && IsDelay(delay, run.attempt)
        && now == Record(
             run.(status := RunQueued, output := Object(map[
               "retry_scheduled" := Bool(true), "retry_in_ms" := Number(delay / 1_000_000),
               "attempt" := Number(run.attempt), "max_attempts" := Number(run.maxAttempts)])),
             was.steps, was.pending, was.log + [RetryScheduledEvent(delay)])
        && dest == ToTimer(job.(attempt := run.attempt, maxAttempts := run.maxAttempts), delay)
    else
      && now == Record(
           run.(status := RunDeadLetter, output := Object(map[
             "dead_lettered" := Bool(true),
             "attempt" := Number(run.attempt), "max_attempts" := Number(run.maxAttempts)])),
           was.steps, was.pending, was.log + [RunDeadLetteredEvent])
      && dest == Leave
  }

  lemma RetrySettles(was: Record, job: Job, queued: Run, delay: int)
    requires was.run.status == RunFailed && was.run.attempt < was.run.maxAttempts
    requires delay == RetryDelay(BASE_BACKOFF, was.run.attempt)
    requires queued == was.run.(status := RunQueued, output := RetryOutput(was.run, delay))
    ensures Settled(was, job, RecordEvent(UpdateRun(was, queued), RetryScheduledEvent(delay)),
                    ToTimer(job.(attempt := was.run.attempt, maxAttempts := was.run.maxAttempts), delay))
  {
    RetryDelayIs(was.run.attempt);
    hide IsDelay, RetryDelay;
  }

  lemma BurialSettles(was: Record, job: Job, dead: Run)
    requires was.run.status == RunFailed && was.run.attempt >= was.run.maxAttempts
    requires dead == was.run.(status := RunDeadLetter, output := DeadLetterOutput(was.run))
    ensures Settled(was, job, RecordEvent(UpdateRun(was, dead), RunDeadLetteredEvent), Leave)
  {}

  /** The workflow the job asks for, built. */
  ghost predicate Found(workflows: Workflows, tenantID: string, workflowID: string, g: Graph) {
    && workflowID in workflows && workflows[workflowID].tenantID == tenantID
    && g.roots != [] && Describes(g, workflows[workflowID].definition)
  }

  lemma ResolvedFound(workflows: Workflows, tenantID: string, workflowID: string)
    ensures var r := Resolve(workflows, tenantID, workflowID);
            if r.Ok? then r.value.Valid() && Found(workflows, tenantID, workflowID, r.value)
            else forall g :: !Found(workflows, tenantID, workflowID, g)
  {
    if workflowID in workflows {
      GraphDescribes(workflows[workflowID].definition);
      BuildsIff(workflows[workflowID].definition);
      hide Selects, LastOfID, Precedes, Entered, Roots;
      forall g | Describes(g, workflows[workflowID].definition) && g.roots != []
        ensures Resolve(workflows, tenantID, workflowID).Err? ==> workflows[workflowID].tenantID != tenantID
      {
        assert g.roots[0] in g.roots;
      }
    }
  }

  /** A claimed run after its pass: the attempt counted, the job's input laid over its own, and the pass shown. */
  ghost predicate Attempted(g: Graph, body: Body, was: Record, job: Job, now: Record) {
    && now.run == was.run.(
         status := now.run.status, output := now.run.output, error := now.run.error, input := now.run.input,
         attempt := job.attempt + 1,
         maxAttempts := if job.maxAttempts > 0 then job.maxAttempts else was.run.maxAttempts)
    && Overlays(now.run.input, was.run.input, job.input)
    && (now.run.status != RunFailed ==> now.run.error == was.run.error)
    && Recorded(was.log, now.steps, now.run.status, now.log)
    && ("" !in g.nodes ==> RanFrom(g, body, map[], [], now))
  }

  /** What a job's call leaves: nothing new for a run that is not queued, a failure if its workflow is gone. */
  ghost predicate Called(workflows: Workflows, body: Body, was: Record, job: Job, now: Record) {
    if was.run.status != RunQueued then now == was
    else
      || (exists g :: Found(workflows, job.tenantID, job.workflowID, g) && Attempted(g, body, was, job, now))
      || ((forall g :: !Found(workflows, job.tenantID, job.workflowID, g))
          && now == Record(was.run.(status := RunFailed, error := now.run.error), [], None, was.log))
  }

  /** A refused run: its waiting step and its ending tell of the refusal, and nothing waits any more. */
  ghost predicate Refuses(was: Record, comment: string, now: Record) {
    && was.pending.Some? && was.steps != []
    && var last, id := |was.steps| - 1, was.pending.value.waitingNodeID;
       var decision := Object(map["approved" := Bool(false), "comment" := Str(TrimSpace(comment))]);
       now == Record(
         was.run.(input := now.run.input, status := RunFailed, error := "approval rejected",
                  output := Object(map["failed_node" := Str(id), "approval" := decision])),
         was.steps[last := was.steps[last].(status := Completed, output := decision)],
         None, was.log + [ApprovalResolvedEvent(id), RunFailedEvent])
  }

  /** An approved run: the decision is the output of its waiting step, and the run goes on from what was frozen. */
  ghost predicate GoesOn(g: Graph, body: Body, was: Record, comment: string, now: Record) {
    && was.pending.Some? && was.steps != []
    && var last, id := |was.steps| - 1, was.pending.value.waitingNodeID;
       var decision := Object(map["approved" := Bool(true), "comment" := Str(TrimSpace(comment))]);
       var resolved := was.steps[last := was.steps[last].(status := Completed, output := decision)];
       && now.run == was.run.(input := now.run.input, status := now.run.status, error := now.run.error,
                              output := now.run.output)
       && (now.run.status != RunFailed ==> now.run.error == "")
       && resolved <= now.steps
       && Recorded(was.log + [ApprovalResolvedEvent(id)], Since(resolved, now.steps), now.run.status, now.log)
       && ("" !in g.nodes && id != "" ==>
             RanFrom(g, body, was.pending.value.stepOutputs[id := decision], resolved, now))
  }

  lemma PassAttempted(g: Graph, body: Body, was: Record, job: Job, claimed: Run, now: Record)
    requires claimed == was.run.(
               status := RunRunning, attempt := job.attempt + 1, input := MergeInput(was.run.input, job.input),
               maxAttempts := if job.maxAttempts > 0 then job.maxAttempts else was.run.maxAttempts)
    requires now.run == claimed.(status := now.run.status, output := now.run.output, error := now.run.error)
    requires now.run.status != RunFailed ==> now.run.error == claimed.error
    requires Recorded(was.log, now.steps, now.run.status, now.log)
    requires "" !in g.nodes ==> RanFrom(g, body, map[], [], now)
    ensures Attempted(g, body, was, job, now)
  {
    MergeOverlays(was.run.input, job.input);
    hide MergeInput, Recorded, RanFrom, Overlays;
  }

  lemma ErrorKept(rec: Record, o: Outcome, error: string)
    requires Shows(rec, o) && rec.run.error == if o.Broken? then o.error else error
    ensures rec.run.status != RunFailed ==> rec.run.error == error
  {}

  lemma RejectionRefuses(was: Record, comment: string, now: Record)
    requires was.pending.Some? && was.steps != []
    requires var (id, decision) := (was.pending.value.waitingNodeID, Decision(false, comment));
             && now.run == was.run.(
                  status := RunFailed, error := "approval rejected",
                  output := Object(map["failed_node" := Str(id), "approval" := decision]))
             && now.steps == ResolvedSteps(was.steps, decision) && now.pending.None?
             && now.log == was.log + [ApprovalResolvedEvent(id)] + [RunFailedEvent]
    ensures Refuses(was, comment, now)
  {
    hide TrimSpace;
    var id := was.pending.value.waitingNodeID;
    assert was.log + [ApprovalResolvedEvent(id)] + [RunFailedEvent]
        == was.log + [ApprovalResolvedEvent(id), RunFailedEvent];
  }

  lemma ApprovalGoesOn(g: Graph, body: Body, was: Record, comment: string, resumed: Run, st: State, now: Record)
    requires was.pending.Some? && was.steps != []
    requires resumed == was.run.(status := RunRunning, error := "", output := Null)
    requires st == Thaw(was.steps, was.pending.value, Decision(true, comment))
    requires now.run == resumed.(status := now.run.status, output := now.run.output, error := now.run.error)
    requires now.run.status != RunFailed ==> now.run.error == ""
    requires st.steps <= now.steps
    requires Recorded(was.log + [ApprovalResolvedEvent(was.pending.value.waitingNodeID)], Since(st.steps, now.steps),
                      now.run.status, now.log)
    requires was.steps[|was.steps| - 1].nodeID == was.pending.value.waitingNodeID
    requires "" !in g.nodes && LastTold(st) ==> RanFrom(g, body, st.stepOutputs, st.steps, now)
    ensures GoesOn(g, body, was, comment, now)
  {
    hide TrimSpace, Recorded, RanFrom;
  }

  /** Neither looks at the input the run had before. */
  lemma InputAside(g: Graph, body: Body, was: Record, input: Fields, comment: string, now: Record)
    ensures Refuses(was.(run := was.run.(input := input)), comment, now) ==> Refuses(was, comment, now)
    ensures GoesOn(g, body, was.(run := was.run.(input := input)), comment, now) ==> GoesOn(g, body, was, comment, now)
  {
    hide TrimSpace, Recorded, RanFrom;
  }
}
