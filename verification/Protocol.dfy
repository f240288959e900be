/**
 * Clients, workers, resumers and timers as one interleaved state machine (`internal/executor/async.go`,
 * `internal/executor/service.go`, `internal/worker/service.go`, `internal/worker/memory_queue.go`).
 * Every action makes at most one access to the repository, the audit log or the queue.
 */
module Protocol {
  import opened Text
  import opened Values
  import opened Workflow
  import opened Graphs
  import opened Engine
  import opened Backoff
  import opened Runs

  datatype StoredWorkflow = StoredWorkflow(tenantID: string, definition: Definition)

  type Workflows = map<string, StoredWorkflow>

  /** Who drives an execution. */
  datatype Mode = ByJob(job: Job) | BySync | ByResume

  /** What a busy agent is about to do next, with its local variables. */
  datatype Pc =
    // ExecuteAsync
    | Created(job: Job)
    | Announced(job: Job)
    // ProcessNext and ProcessAsyncJob
    | Holding(job: Job)
    | Unresolvable(job: Job, run: Run)
    | Checked(job: Job, run: Run, g: Graph)
    // executeRun and continueExecution
    | Starting(mode: Mode, run: Run, g: Graph, st: State)
    | Walking(mode: Mode, run: Run, g: Graph, st: State, queued: set<string>)
    | Stopped(mode: Mode, run: Run, outcome: Outcome)
    | Written(mode: Mode, run: Run)
    // the rest of ProcessNext
    | Returned(job: Job, run: Run)
    | Requeued(job: Job, delay: int)
    | Scheduling(job: Job, delay: int)
    | DeadLettered(run: Run)
    // ResumeApproval
    | Loaded(run: Run, steps: seq<Step>, pending: Pending, approved: bool, comment: string, g: Graph)
    | Rejecting(run: Run, steps: seq<Step>)

  function RunOf(pc: Pc): string {
    match pc
    case Created(job) => job.runID
    case Announced(job) => job.runID
    case Holding(job) => job.runID
    case Unresolvable(job, _) => job.runID
    case Checked(job, _, _) => job.runID
    case Starting(_, run, _, _) => run.id
    case Walking(_, run, _, _, _) => run.id
    case Stopped(_, run, _) => run.id
    case Written(_, run) => run.id
    case Returned(job, _) => job.runID
    case Requeued(job, _) => job.runID
    case Scheduling(job, _) => job.runID
    case DeadLettered(run) => run.id
    case Loaded(run, _, _, _, _, _) => run.id
    case Rejecting(run, _) => run.id
  }

  /** Only accepted definitions are stored. */
  ghost predicate AllAccepted(workflows: Workflows, httpToolOK: Fields -> bool) {
    forall id :: id in workflows ==> Accepted(workflows[id].definition, httpToolOK)
  }

  /** workflows.Get followed by buildGraph. */
  function Resolve(workflows: Workflows, tenantID: string, workflowID: string): Result<Graph, string> {
    if workflowID !in workflows || workflows[workflowID].tenantID != tenantID then Err("workflow not found")
    else
      var d := workflows[workflowID].definition;
      if Roots(d.nodes, d.edges) == [] then Err("workflow contains a cycle and cannot be executed")
      else Ok(GraphOf(d))
  }

  lemma ResolvedValid(workflows: Workflows, tenantID: string, workflowID: string)
    ensures Resolve(workflows, tenantID, workflowID).Ok? ==> Resolve(workflows, tenantID, workflowID).value.Valid()
  {}

  /** Where the work on a run goes after a step. */
  datatype Dest = Stay(pc: Pc) | ToChannel(job: Job) | ToTimer(job: Job, delay: int) | Leave

  /** The run's record after a step, and where the work goes. */
  datatype Effect = Effect(rec: Record, dest: Dest)

  function RunOutput(st: State): Value {
    if st.lastNodeID == "" then Null
    else Object(map[
      "last_node" := Str(st.lastNodeID),
      "result" := if st.lastNodeID in st.stepOutputs then st.stepOutputs[st.lastNodeID] else Null])
  }

  function RetryOutput(run: Run, delay: int): Value {
    Object(map[
      "retry_scheduled" := Bool(true), "retry_in_ms" := Number(delay / 1_000_000),
      "attempt" := Number(run.attempt), "max_attempts" := Number(run.maxAttempts)])
  }

  function DeadLetterOutput(run: Run): Value {
    Object(map[
      "dead_lettered" := Bool(true), "attempt" := Number(run.attempt), "max_attempts" := Number(run.maxAttempts)])
  }

  /** GetRun, the status check, and the resolution of the workflow. */
  function CheckJob(workflows: Workflows, rec: Record, job: Job): Dest {
    if TrimSpace(job.tenantID) == "" || rec.run.tenantID != job.tenantID then Leave
    else if rec.run.status != RunQueued then Stay(Returned(job, rec.run))
    else
      match Resolve(workflows, job.tenantID, job.workflowID)
      case Err(e) => Stay(Unresolvable(job, rec.run.(status := RunFailed, error := e)))
      case Ok(g) =>
        Stay(Checked(job, rec.run.(
          status := RunRunning,
          attempt := job.attempt + 1,
          maxAttempts := if job.maxAttempts > 0 then job.maxAttempts else rec.run.maxAttempts,
          input := MergeInput(rec.run.input, job.input)), g))
  }

  /** One iteration of the loop, with the audit event it records. */
  function WalkStep(rec: Record, pc: Pc, result: Result<Value, string>): Effect
    requires pc.Walking? && pc.st.queue != []
  {
    var node := pc.g.Node(pc.st.queue[0]);
    var returned := if Executable(node.typ) then result else Err("node type is not supported by sync execution yet");
    match TakeTurn(pc.g, pc.st, pc.queued, returned, [])
    case Stop(outcome) =>
      Effect(RecordEvent(rec, if outcome.Broken? then StepFailedEvent(node.id) else StepWaitingEvent(node.id)),
             Stay(Stopped(pc.mode, pc.run, outcome)))
    case Go(st', queued', _) =>
      Effect(RecordEvent(rec, StepCompletedEvent(node.id)), Stay(Walking(pc.mode, pc.run, pc.g, st', queued')))
  }

  /** executeRun stores how the loop ended. */
  function StoreOutcome(rec: Record, mode: Mode, run: Run, outcome: Outcome): Effect {
    match outcome
    case Broken(st, nodeID, error) =>
      var run' := run.(status := RunFailed, error := error, output := Object(map["failed_node" := Str(nodeID)]));
      Effect(CompleteRun(rec, run', st.steps), Stay(Written(mode, run')))
    case Paused(st, output, pending) =>
      var run' := run.(status := RunWaitingApproval, output := output);
      Effect(SavePending(rec, run', st.steps, pending), Stay(Written(mode, run')))
    case Finished(st) =>
      var run' := run.(status := RunCompleted, output := RunOutput(st));
      Effect(CompleteRun(rec, run', st.steps), Stay(Written(mode, run')))
  }

  /** The stored run, its steps and its pending record show how a pass of the loop ended. */
  predicate Shows(rec: Record, outcome: Outcome) {
    && rec.steps == outcome.st.steps
    && match outcome
       case Finished(st) => rec.run.status == RunCompleted && rec.run.output == RunOutput(st) && rec.pending.None?
       case Broken(_, nodeID, error) =>
         && rec.run.status == RunFailed && rec.run.error == error && rec.pending.None?
         && rec.run.output == Object(map["failed_node" := Str(nodeID)])
       case Paused(_, output, pending) =>
         rec.run.status == RunWaitingApproval && rec.run.output == output && rec.pending == Some(pending)
  }

  function EndEvent(status: RunStatus): Event {
    match status
    case RunFailed => RunFailedEvent
    case RunWaitingApproval => RunWaitingEvent
    case _ => RunCompletedEvent
  }

  /** ProcessNext decides between retry and dead letter. */
  function Decide(rec: Record, job: Job, run: Run): Effect {
    if run.status != RunFailed then Effect(rec, Leave)
    else if run.attempt < run.maxAttempts then
      var delay := RetryDelay(BASE_BACKOFF, run.attempt);
      Effect(UpdateRun(rec, run.(status := RunQueued, output := RetryOutput(run, delay))),
             Stay(Requeued(job.(attempt := run.attempt, maxAttempts := run.maxAttempts), delay)))
    else
      var run' := run.(status := RunDeadLetter, output := DeadLetterOutput(run));
      Effect(UpdateRun(rec, run'), Stay(DeadLettered(run')))
  }

  function ResolvedSteps(steps: seq<Step>, decision: Value): seq<Step>
    requires steps != []
  {
    steps[|steps| - 1 := steps[|steps| - 1].(status := Completed, output := decision)]
  }

  /** ResumeApproval after LoadPending, up to the write that follows the approval_resolved event. */
  function ResolveApproval(rec: Record, pc: Pc): Effect
    requires pc.Loaded?
  {
    if pc.steps == [] || pc.steps[|pc.steps| - 1].nodeID != pc.pending.waitingNodeID then Effect(rec, Leave)
    else
      var decision := Decision(pc.approved, pc.comment);
      var rec' := RecordEvent(rec, ApprovalResolvedEvent(pc.pending.waitingNodeID));
      if !pc.approved then
        var output := Object(map["failed_node" := Str(pc.pending.waitingNodeID), "approval" := decision]);
        Effect(rec', Stay(Rejecting(pc.run.(status := RunFailed, error := "approval rejected", output := output),
                                    ResolvedSteps(pc.steps, decision))))
      else
        Effect(rec', Stay(Starting(ByResume, pc.run.(status := RunRunning, error := "", output := Null), pc.g,
                                   Thaw(pc.steps, pc.pending, decision))))
  }

  /** The next step of an agent, against the record of the run it works on. */
  function LocalStep(workflows: Workflows, rec: Record, pc: Pc, result: Result<Value, string>): Effect {
    match pc
    case Created(job) => Effect(RecordEvent(rec, RunQueuedEvent), Stay(Announced(job)))
    case Announced(job) => Effect(rec, ToChannel(job))
    case Holding(job) => Effect(rec, CheckJob(workflows, rec, job))
    case Unresolvable(job, run) => Effect(CompleteRun(rec, run, []), Stay(Returned(job, run)))
    case Checked(job, run, g) =>
      Effect(UpdateRun(rec, run), Stay(Starting(ByJob(job), run, g, NewState(g.roots))))
    case Starting(mode, run, g, st) =>
      Effect(RecordEvent(rec, RunStartedEvent), Stay(Walking(mode, run, g, st, Elements(st.queue))))
    case Walking(mode, run, g, st, queued) =>
      if st.queue == [] then Effect(rec, Stay(Stopped(mode, run, Finished(st)))) else WalkStep(rec, pc, result)
    case Stopped(mode, run, outcome) => StoreOutcome(rec, mode, run, outcome)
    case Written(mode, run) =>
      Effect(RecordEvent(rec, EndEvent(run.status)), if mode.ByJob? then Stay(Returned(mode.job, run)) else Leave)
    case Returned(job, run) => Decide(rec, job, run)
    case Requeued(job, delay) => Effect(RecordEvent(rec, RetryScheduledEvent(delay)), Stay(Scheduling(job, delay)))
    case Scheduling(job, delay) => Effect(rec, ToTimer(job, delay))
    case DeadLettered(run) => Effect(RecordEvent(rec, RunDeadLetteredEvent), Leave)
    case Loaded(_, _, _, _, _, _) => ResolveApproval(rec, pc)
    case Rejecting(run, steps) => Effect(CompleteRun(rec, run, steps), Stay(Written(ByResume, run)))
  }

  // The whole system

  datatype Timer = Timer(job: Job, delay: int)

  datatype System = System(
    workflows: Workflows,
    db: map<string, Record>,
    channel: seq<Job>,
    capacity: nat,
    timers: map<nat, Timer>,
    agents: map<nat, Pc>)

  datatype Action =
    | CreateWorkflow(workflowID: string, tenantID: string, definition: Definition)
    | StartAsync(agent: nat, runID: string, tenantID: string, workflowID: string, input: Fields)
    | StartSync(agent: nat, runID: string, tenantID: string, workflowID: string, input: Fields)
    | StartResume(agent: nat, tenantID: string, runID: string, approved: bool, comment: string, input: Fields)
    | Dequeue(agent: nat)
    | Fire(timer: nat)
    | Move(agent: nat, result: Result<Value, string>, timer: nat)

  /** Identifiers are fresh, idle agents start calls, and a full channel blocks its senders. */
  predicate Enabled(s: System, act: Action) {
    match act
    case CreateWorkflow(workflowID, tenantID, _) => workflowID !in s.workflows && TrimSpace(tenantID) != ""
    case StartAsync(a, runID, tenantID, _, _) => a !in s.agents && runID !in s.db && TrimSpace(tenantID) != ""
    case StartSync(a, runID, tenantID, _, _) => a !in s.agents && runID !in s.db && TrimSpace(tenantID) != ""
    case StartResume(a, tenantID, _, _, _, _) => a !in s.agents && TrimSpace(tenantID) != ""
    case Dequeue(a) => a !in s.agents && s.channel != []
    case Fire(t) => t in s.timers && |s.channel| < s.capacity
    case Move(a, _, t) =>
      && a in s.agents
      && (s.agents[a].Announced? ==> |s.channel| < s.capacity)
      && (s.agents[a].Scheduling? ==> t !in s.timers)
  }

  /** Resumes of a run are serial: one starts only when no call on that run is still in progress. */
  predicate Serial(s: System, act: Action) {
    act.StartResume? ==> forall a :: a in s.agents ==> RunOf(s.agents[a]) != act.runID
  }

  function NewRun(runID: string, tenantID: string, workflowID: string, status: RunStatus, trigger: Trigger,
                  maxAttempts: int, input: Fields): Run {
    Run(runID, tenantID, workflowID, status, trigger, 0, maxAttempts, input, Null, "")
  }

  function ApplyStartAsync(s: System, act: Action): System
    requires act.StartAsync?
  {
    if act.workflowID !in s.workflows || s.workflows[act.workflowID].tenantID != act.tenantID then s
    else
      var run := NewRun(act.runID, act.tenantID, act.workflowID, RunQueued, Async, MAX_ATTEMPTS, act.input);
      var job := Job(act.runID, act.tenantID, act.workflowID, 0, MAX_ATTEMPTS, act.input);
      s.(db := s.db[act.runID := CreateRun(run)], agents := s.agents[act.agent := Created(job)])
  }

  function ApplyStartSync(s: System, act: Action): System
    requires act.StartSync?
  {
    if act.workflowID !in s.workflows || s.workflows[act.workflowID].tenantID != act.tenantID then s
    else
      var run := NewRun(act.runID, act.tenantID, act.workflowID, RunRunning, Sync, 0, act.input);
      var s' := s.(db := s.db[act.runID := CreateRun(run)]);
      match Resolve(s.workflows, act.tenantID, act.workflowID)
      case Err(_) => s'
      case Ok(g) => s'.(agents := s.agents[act.agent := Starting(BySync, run, g, NewState(g.roots))])
  }

  function ApplyStartResume(s: System, act: Action): System
    requires act.StartResume?
  {
    if act.runID !in s.db || s.db[act.runID].run.tenantID != act.tenantID || s.db[act.runID].pending.None? then s
    else
      var rec := s.db[act.runID];
      match Resolve(s.workflows, act.tenantID, rec.run.workflowID)
      case Err(_) => s
      case Ok(g) =>
        s.(agents := s.agents[act.agent := Loaded(
          rec.run.(input := MergeInput(rec.run.input, act.input)), rec.steps, rec.pending.value,
          act.approved, act.comment, g)])
  }

  /** Store the effect of an agent's step and pass the work on. */
  function Commit(s: System, agent: nat, timer: nat, r: string, e: Effect): System {
    var s' := s.(db := s.db[r := e.rec]);
    match e.dest
    case Stay(pc') => s'.(agents := s.agents[agent := pc'])
    case ToChannel(job) => s'.(agents := s.agents - {agent}, channel := s.channel + [job])
    case ToTimer(job, delay) => s'.(agents := s.agents - {agent}, timers := s.timers[timer := Timer(job, delay)])
    case Leave => s'.(agents := s.agents - {agent})
  }

  function ApplyMove(s: System, act: Action): System
    requires act.Move? && act.agent in s.agents
  {
    var pc := s.agents[act.agent];
    var r := RunOf(pc);
    if r !in s.db then s.(agents := s.agents - {act.agent})
    else Commit(s, act.agent, act.timer, r, LocalStep(s.workflows, s.db[r], pc, act.result))
  }

  ghost function Apply(s: System, act: Action, httpToolOK: Fields -> bool): System
    requires Enabled(s, act)
  {
    match act
    case CreateWorkflow(workflowID, tenantID, d) =>
      if Accepted(d, httpToolOK) then s.(workflows := s.workflows[workflowID := StoredWorkflow(tenantID, d)]) else s
    case StartAsync(_, _, _, _, _) => ApplyStartAsync(s, act)
    case StartSync(_, _, _, _, _) => ApplyStartSync(s, act)
    case StartResume(_, _, _, _, _, _) => ApplyStartResume(s, act)
    case Dequeue(a) => s.(channel := s.channel[1..], agents := s.agents[a := Holding(s.channel[0])])
    case Fire(t) => s.(channel := s.channel + [s.timers[t].job], timers := s.timers - {t})
    case Move(_, _, _) => ApplyMove(s, act)
  }

  function Initial(capacity: nat): System {
    System(map[], map[], [], capacity, map[], map[])
  }

  /** The state after a history of actions, if each was enabled and resumes were serial. */
  ghost function After(capacity: nat, history: seq<Action>, httpToolOK: Fields -> bool): Option<System> {
    if history == [] then Some(Initial(capacity))
    else
      var before := After(capacity, history[..|history| - 1], httpToolOK);
      var act := history[|history| - 1];
      if before.Some? && Enabled(before.value, act) && Serial(before.value, act)
      then Some(Apply(before.value, act, httpToolOK))
      else None
  }

  ghost predicate Reachable(s: System, httpToolOK: Fields -> bool) {
    exists capacity, history :: After(capacity, history, httpToolOK) == Some(s)
  }
}
