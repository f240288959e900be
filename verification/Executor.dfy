/**
 * The executor and worker services, statement by statement (`internal/executor/engine.go`,
 * `internal/executor/async.go`, `internal/executor/service.go`, `internal/worker/service.go`). Run without
 * interference, each method takes exactly the steps the protocol gives its agent.
 */
module Executor {
  import opened Text
  import opened Values
  import opened Workflow
  import opened Graphs
  import opened Engine
  import opened StepBodies
  import opened Backoff
  import opened Runs
  import opened Protocol
  import opened Observed
  import opened Stores

  /** What the node at the head of an agent's worklist returns. */
  function NodeResult(body: Body, pc: Pc): Result<Value, string> {
    if pc.Walking? && pc.st.queue != [] then HeadResult(pc.g, body, pc.run.input, pc.st) else Err("")
  }

  /** The record and the agent after `n` undisturbed steps, as long as the agent keeps the run. */
  function LocalAfter(workflows: Workflows, body: Body, rec: Record, pc: Pc, n: nat): Option<(Record, Pc)> {
    if n == 0 then Some((rec, pc))
    else
      match LocalAfter(workflows, body, rec, pc, n - 1)
      case None => None
      case Some((rec', pc')) =>
        var e := LocalStep(workflows, rec', pc', NodeResult(body, pc'));
        if e.dest.Stay? then Some((e.rec, e.dest.pc)) else None
  }

  ghost predicate Reached(workflows: Workflows, body: Body, rec: Record, pc: Pc, rec': Record, pc': Pc) {
    exists n: nat :: LocalAfter(workflows, body, rec, pc, n) == Some((rec', pc'))
  }

  lemma ReachedSelf(workflows: Workflows, body: Body, rec: Record, pc: Pc)
    ensures Reached(workflows, body, rec, pc, rec, pc)
  {
    assert LocalAfter(workflows, body, rec, pc, 0) == Some((rec, pc));
  }

  lemma ReachedStep(workflows: Workflows, body: Body, rec: Record, pc: Pc, rec': Record, pc': Pc, e: Effect)
    requires Reached(workflows, body, rec, pc, rec', pc')
    requires e == LocalStep(workflows, rec', pc', NodeResult(body, pc')) && e.dest.Stay?
    ensures Reached(workflows, body, rec, pc, e.rec, e.dest.pc)
  {
    var n: nat :| LocalAfter(workflows, body, rec, pc, n) == Some((rec', pc'));
    assert LocalAfter(workflows, body, rec, pc, n + 1) == Some((e.rec, e.dest.pc));
  }

  // Queue helpers

  lemma {:induction false} FreshSnoc(next: seq<string>, x: string, blocked: set<string>)
    ensures Fresh(next + [x], blocked) ==
            Fresh(next, blocked) + if x in blocked || x in Fresh(next, blocked) then [] else [x]
  {
    if next == [] {
      assert [x][1..] == [];
    } else {
      assert (next + [x])[1..] == next[1..] + [x];
      if next[0] in blocked {
        FreshSnoc(next[1..], x, blocked);
      } else {
        FreshSnoc(next[1..], x, blocked + {next[0]});
      }
    }
  }

  /** Append what is neither executed nor queued, keeping the index of queued nodes. */
  method EnqueueNext(existing: seq<string>, next: seq<string>, executed: set<string>, waiting: set<string>)
    returns (queue: seq<string>, queued: set<string>)
    ensures queue == existing + Fresh(next, executed + waiting)
    ensures queued == waiting + Elements(Fresh(next, executed + waiting))
    ensures existing <= queue && FirstOccurrences(queue[|existing|..], next, executed + waiting)
  {
    FreshInOrder(next, executed + waiting);
    hide FirstOccurrences;
    queue, queued := existing, waiting;
    for i := 0 to |next|
      invariant queue == existing + Fresh(next[..i], executed + waiting)
      invariant queued == waiting + Elements(Fresh(next[..i], executed + waiting))
    {
      assert next[..i + 1] == next[..i] + [next[i]];
      FreshSnoc(next[..i], next[i], executed + waiting);
      if next[i] in executed || next[i] in queued {
        continue;
      }
      queue := queue + [next[i]];
      queued := queued + {next[i]};
    }
    assert next[..|next|] == next;
  }

  method IndexQueue(queue: seq<string>) returns (queued: set<string>)
    ensures queued == Elements(queue)
  {
    queued := {};
    for i := 0 to |queue|
      invariant queued == Elements(queue[..i])
    {
      assert queue[..i + 1] == queue[..i] + [queue[i]];
      queued := queued + {queue[i]};
    }
    assert queue[..|queue|] == queue;
  }

  method AppendQueue(existing: seq<string>, next: seq<string>, executed: set<string>) returns (queue: seq<string>)
    ensures queue == existing + Fresh(next, executed + Elements(existing))
    ensures existing <= queue && FirstOccurrences(queue[|existing|..], next, executed + Elements(existing))
  {
    FreshInOrder(next, executed + Elements(existing));
    hide FirstOccurrences;
    if |existing| == 0 && |next| == 0 {
      return [];
    }
    var queued := IndexQueue(existing);
    queue, queued := EnqueueNext(existing, next, executed, queued);
  }

  function TurnEvent(node: Node, turn: Turn): Event {
    match turn
    case Go(_, _, _) => StepCompletedEvent(node.id)
    case Stop(outcome) => if outcome.Broken? then StepFailedEvent(node.id) else StepWaitingEvent(node.id)
  }

  lemma NothingSince(st: State, log: seq<Event>)
    ensures st.steps <= st.steps && Grown(log, Since(st.steps, st.steps), log)
  {
    NotGrown(log);
    assert Since(st.steps, st.steps) == [];
  }

  lemma ContinueIsWalk(g: Graph, body: Body, input: Fields, st: State)
    requires g.Valid()
    ensures Walk(g, body, input, st, Elements(st.queue), []) == Continue(g, body, input, st)
  {}

  lemma TurnTold(
    g: Graph, st: State, queued: set<string>, result: Result<Value, string>, before: seq<Event>, start: seq<Step>,
    log: seq<Event>)
    requires st.queue != [] && start <= st.steps && Grown(before, Since(start, st.steps), log)
    ensures var turn := TakeTurn(g, st, queued, result, []);
            var steps := if turn.Go? then turn.st.steps else turn.outcome.st.steps;
            && start <= steps
            && Grown(before, Since(start, steps), log + [TurnEvent(g.Node(st.queue[0]), turn)])
  {
    hide TakeTurn, Grown;
    TurnGrows(g, st, queued, result, before, start, log,
              TurnEvent(g.Node(st.queue[0]), TakeTurn(g, st, queued, result, [])));
  }

  lemma ShownStill(rec: Record, rec': Record, o: Outcome)
    requires Shows(rec, o) && rec' == rec.(log := rec'.log)
    ensures Shows(rec', o)
  {}

  /** The protocol's walking step is a turn of the loop with its event. */
  lemma LocalTurn(workflows: Workflows, body: Body, rec: Record, pc: Pc)
    requires pc.Walking? && pc.st.queue != []
    ensures var turn := TakeTurn(pc.g, pc.st, pc.queued, HeadResult(pc.g, body, pc.run.input, pc.st), []);
            LocalStep(workflows, rec, pc, NodeResult(body, pc)) ==
            Effect(RecordEvent(rec, TurnEvent(pc.g.Node(pc.st.queue[0]), turn)),
                   Stay(if turn.Stop? then Stopped(pc.mode, pc.run, turn.outcome)
                        else Walking(pc.mode, pc.run, pc.g, turn.st, turn.queued)))
  {
    hide TakeTurn;
  }

  /** An agent's last step leaves `rec` and sends the work to `dest`. */
  predicate Leaving(workflows: Workflows, before: Record, was: Pc, rec: Record, dest: Dest) {
    !dest.Stay? && LocalStep(workflows, before, was, Err("")) == Effect(rec, dest)
  }

  /** A call that began at `rec` and `pc` has taken its last step, which left `rec'` and sent the work to `dest`. */
  ghost predicate Ends(workflows: Workflows, body: Body, rec: Record, pc: Pc, rec': Record, dest: Dest) {
    exists before, was :: Reached(workflows, body, rec, pc, before, was) && Leaving(workflows, before, was, rec', dest)
  }

  lemma StartedStep(workflows: Workflows, rec: Record, mode: Mode, run: Run, g: Graph, st: State)
    ensures LocalStep(workflows, rec, Starting(mode, run, g, st), Err("")) ==
            Effect(RecordEvent(rec, RunStartedEvent), Stay(Walking(mode, run, g, st, Elements(st.queue))))
  {}

  lemma StoppedStep(workflows: Workflows, rec: Record, mode: Mode, run: Run, outcome: Outcome)
    ensures LocalStep(workflows, rec, Stopped(mode, run, outcome), Err("")) == StoreOutcome(rec, mode, run, outcome)
  {}

  lemma WrittenStep(workflows: Workflows, rec: Record, mode: Mode, run: Run)
    ensures LocalStep(workflows, rec, Written(mode, run), Err("")) ==
            Effect(RecordEvent(rec, EndEvent(run.status)), if mode.ByJob? then Stay(Returned(mode.job, run)) else Leave)
  {}

  /** A worker's steps from the dequeued job to the claimed run. */
  lemma HoldingSteps(workflows: Workflows, rec: Record, job: Job, run: Run, g: Graph)
    ensures forall result ::
              LocalStep(workflows, rec, Holding(job), result) == Effect(rec, CheckJob(workflows, rec, job))
    ensures forall result :: LocalStep(workflows, rec, Unresolvable(job, run), result)
                          == Effect(CompleteRun(rec, run, []), Stay(Returned(job, run)))
    ensures forall result :: LocalStep(workflows, rec, Checked(job, run, g), result)
                          == Effect(UpdateRun(rec, run), Stay(Starting(ByJob(job), run, g, NewState(g.roots))))
  {}

  /** What is left of a worker's turn once the call has returned, step by step. */
  lemma SettlingSteps(workflows: Workflows, rec: Record, job: Job, run: Run, delay: int)
    ensures forall result :: LocalStep(workflows, rec, Returned(job, run), result) == Decide(rec, job, run)
    ensures forall result :: LocalStep(workflows, rec, Requeued(job, delay), result)
                          == Effect(RecordEvent(rec, RetryScheduledEvent(delay)), Stay(Scheduling(job, delay)))
    ensures forall result ::
              LocalStep(workflows, rec, Scheduling(job, delay), result) == Effect(rec, ToTimer(job, delay))
    ensures forall result :: LocalStep(workflows, rec, DeadLettered(run), result)
                          == Effect(RecordEvent(rec, RunDeadLetteredEvent), Leave)
  {}

  /** An approval, with `input` merged in, took the waiting run on from where it was parked. */
  ghost predicate Resumes(g: Graph, body: Body, input: Fields, decision: Value, rec: Record, rec': Record) {
    && g.Valid() && rec.pending.Some? && rec.steps != []
    && rec'.run.input == MergeInput(rec.run.input, input)
    && Shows(rec', Continue(g, body, rec'.run.input, Thaw(rec.steps, rec.pending.value, decision)))
  }

  class Service {
    const repository: MemoryRepository
    const audit: AuditRepository
    const queue: MemoryQueue
    const body: Body
    var workflows: Workflows

    constructor (repository: MemoryRepository, audit: AuditRepository, queue: MemoryQueue, body: Body)
      ensures this.repository == repository && this.audit == audit && this.queue == queue && this.body == body
      ensures workflows == map[]
    {
      this.repository, this.audit, this.queue, this.body := repository, audit, queue, body;
      workflows := map[];
    }

    /** Everything stored and logged about one run. */
    ghost function RecordOf(runID: string): Record
      requires runID in repository.runs
      reads repository, audit
    {
      Record(repository.runs[runID], repository.StepsOf(runID), repository.PendingOf(runID), audit.LogOf(runID))
    }

    /** What is stored and logged about the other runs is as in `repo` and `events`. */
    ghost predicate OthersAre(
      runID: string, repo: (map<string, Run>, map<string, seq<Step>>, map<string, Pending>),
      events: map<string, seq<Event>>)
      reads repository, audit
    {
      repository.Others(runID) == repo && audit.events - {runID} == events
    }

    /** The run has come from record `rec` with agent `pc` to its present record with agent `now`. */
    ghost predicate Along(rec: Record, pc: Pc, runID: string, now: Pc)
      reads this, repository, audit
    {
      runID in repository.runs && Reached(workflows, body, rec, pc, RecordOf(runID), now)
    }

    /** The body of the worklist loop: pop the head, run it or park it, and record what happened. */
    method ExecuteHead(runID: string, g: Graph, input: Fields, start: State, indexed: set<string>) returns (turn: Turn)
      requires g.Valid() && start.queue != []
      modifies audit
      ensures turn == TakeTurn(g, start, indexed, HeadResult(g, body, input, start), [])
      ensures audit.events
              == old(audit.events)[runID := old(audit.LogOf(runID)) + [TurnEvent(g.Node(start.queue[0]), turn)]]
      ensures audit.LogOf(runID) == old(audit.LogOf(runID)) + [TurnEvent(g.Node(start.queue[0]), turn)]
      ensures audit.events - {runID} == old(audit.events - {runID})
      ensures runID in repository.runs ==>
                RecordOf(runID) == RecordEvent(old(RecordOf(runID)), TurnEvent(g.Node(start.queue[0]), turn))
    {
      hide FollowedBy, FirstOccurrences, Fresh, Next, ApprovalRequest;
      var st, queued := start, indexed;
      var nodeID := st.queue[0];
      var node := g.Node(nodeID);
      st := st.(queue := st.queue[1..]);
      queued := queued - {nodeID};

      if node.typ == "approval" {
        var output := ApprovalRequest(node);
        st := st.(steps := st.steps + [WaitingStep(node)], lastNodeID := node.id);
        audit.Create(runID, StepWaitingEvent(node.id));
        var next := NextNodes(g, node, output);
        var frozen := AppendQueue(st.queue, next, st.executed);
        return Stop(Paused(st, output, Pending(node.id, frozen, st.stepOutputs, st.executed)));
      }

      var result := ExecuteNode(body, node, input, st.stepOutputs);
      if result.Err? {
        st := st.(steps := st.steps + [FailedStep(node, result.error)], lastNodeID := node.id);
        audit.Create(runID, StepFailedEvent(node.id));
        return Stop(Broken(st, node.id, result.error));
      }

      var output := result.value;
      st := st.(steps := st.steps + [CompletedStep(node, output)], lastNodeID := node.id);
      audit.Create(runID, StepCompletedEvent(node.id));
      st := st.(executed := st.executed + {node.id}, stepOutputs := st.stepOutputs[node.id := output]);
      var next := NextNodes(g, node, output);
      var extended;
      extended, queued := EnqueueNext(st.queue, next, st.executed, queued);
      return Go(st.(queue := extended), queued, []);
    }

    lemma AlongTurn(run: Run, g: Graph, st: State, queued: set<string>, mode: Mode, rec: Record, pc: Pc, before: Record)
      requires g.Valid() && st.queue != [] && run.id in repository.runs
      requires Reached(workflows, body, rec, pc, before, Walking(mode, run, g, st, queued))
      requires var turn := TakeTurn(g, st, queued, HeadResult(g, body, run.input, st), []);
               RecordOf(run.id) == RecordEvent(before, TurnEvent(g.Node(st.queue[0]), turn))
      ensures var turn := TakeTurn(g, st, queued, HeadResult(g, body, run.input, st), []);
              Along(rec, pc, run.id, if turn.Stop? then Stopped(mode, run, turn.outcome)
                                     else Walking(mode, run, g, turn.st, turn.queued))
    {
      hide TakeTurn, Reached, HeadResult, LocalStep, TurnEvent;
      var walking := Walking(mode, run, g, st, queued);
      LocalTurn(workflows, body, before, walking);
      ReachedStep(workflows, body, rec, pc, before, walking,
                  LocalStep(workflows, before, walking, NodeResult(body, walking)));
    }

    /** The worklist loop, with its audit events. */
    method ContinueExecution(
      run: Run, g: Graph, input: Fields, start: State, ghost mode: Mode, ghost rec: Record, ghost pc: Pc)
      returns (outcome: Outcome)
      requires g.Valid() && input == run.input
      requires Along(rec, pc, run.id, Walking(mode, run, g, start, Elements(start.queue)))
      modifies audit
      ensures outcome == Continue(g, body, input, start)
      ensures Along(rec, pc, run.id, Stopped(mode, run, outcome))
      ensures audit.events - {run.id} == old(audit.events - {run.id})
      ensures Explained(g, body, input, start, outcome)
      ensures start.steps <= outcome.st.steps
      ensures Grown(old(audit.LogOf(run.id)), Since(start.steps, outcome.st.steps), audit.LogOf(run.id))
    {
      ContinueExplained(g, body, input, start);
      NothingSince(start, audit.LogOf(run.id));
      ContinueIsWalk(g, body, input, start);
      hide *;
      var st := start;
      var queued := IndexQueue(st.queue);
      while |st.queue| > 0
        invariant start.steps <= st.steps
        invariant Grown(old(audit.LogOf(run.id)), Since(start.steps, st.steps), audit.LogOf(run.id))
        invariant Along(rec, pc, run.id, Walking(mode, run, g, st, queued)) && run.id in repository.runs
        invariant Walk(g, body, input, st, queued, []) == Continue(g, body, input, start)
        invariant audit.events - {run.id} == old(audit.events - {run.id})
        decreases |Unvisited(g, st)|, Backlog(st.queue, st.executed)
      {
        ghost var before, result := RecordOf(run.id), HeadResult(g, body, input, st);
        ghost var log := audit.LogOf(run.id);
        AlongReached(rec, pc, run.id, Walking(mode, run, g, st, queued));
        var turn := ExecuteHead(run.id, g, input, st, queued);
        AlongTurn(run, g, st, queued, mode, rec, pc, before);
        TurnTold(g, st, queued, result, old(audit.LogOf(run.id)), start.steps, log);
        WalkUnfolds(g, body, input, st, queued, []);
        if turn.Stop? {
          return turn.outcome;
        }
        TurnDecreases(g, body, input, st, queued, []);
        NoDecisionsLeft(g, st, queued, result);
        st, queued := turn.st, turn.queued;
      }
      WalkUnfolds(g, body, input, st, queued, []);
      outcome := Finished(st);
      AlongFinish(run, g, st, queued, mode, rec, pc);
    }

    lemma AlongReached(rec: Record, pc: Pc, runID: string, now: Pc)
      requires Along(rec, pc, runID, now)
      ensures runID in repository.runs && Reached(workflows, body, rec, pc, RecordOf(runID), now)
    {}

    lemma AlongFinish(run: Run, g: Graph, st: State, queued: set<string>, mode: Mode, rec: Record, pc: Pc)
      requires Along(rec, pc, run.id, Walking(mode, run, g, st, queued)) && st.queue == []
      ensures Along(rec, pc, run.id, Stopped(mode, run, Finished(st)))
    {
      hide Reached;
      var walking := Walking(mode, run, g, st, queued);
      ReachedStep(workflows, body, rec, pc, RecordOf(run.id), walking,
                  LocalStep(workflows, RecordOf(run.id), walking, NodeResult(body, walking)));
    }

    lemma AlongNext(rec: Record, pc: Pc, runID: string, before: Record, was: Pc, now: Pc)
      requires runID in repository.runs && Reached(workflows, body, rec, pc, before, was)
      requires LocalStep(workflows, before, was, NodeResult(body, was)) == Effect(RecordOf(runID), Stay(now))
      ensures Along(rec, pc, runID, now)
    {
      ReachedStep(workflows, body, rec, pc, before, was, LocalStep(workflows, before, was, NodeResult(body, was)));
    }

    /** The run's agent took its last step, which left the present record and sent the work to `dest`. */
    ghost predicate Done(rec: Record, pc: Pc, runID: string, dest: Dest)
      reads this, repository, audit
    {
      runID in repository.runs && Ends(workflows, body, rec, pc, RecordOf(runID), dest)
    }

    /** The write that follows the loop. */
    method StoreRun(run: Run, outcome: Outcome, ghost mode: Mode) returns (ended: Run)
      requires repository.Valid() && run.id in repository.runs
      modifies repository
      ensures repository.Valid() && run.id in repository.runs && ended.id == run.id && repository.runs[run.id] == ended
      ensures StoreOutcome(old(RecordOf(run.id)), mode, run, outcome)
              == Effect(RecordOf(run.id), Stay(Written(mode, ended)))
      ensures repository.Others(run.id) == old(repository.Others(run.id))
      ensures Shows(RecordOf(run.id), outcome)
      ensures ended == run.(status := ended.status, error := ended.error, output := ended.output)
      ensures ended.error == if outcome.Broken? then outcome.error else run.error
    {
      if outcome.Broken? {
        ended := run.(status := RunFailed, error := outcome.error,
                      output := Object(map["failed_node" := Str(outcome.nodeID)]));
        repository.CompleteRun(ended, outcome.st.steps);
      } else if outcome.Paused? {
        ended := run.(status := RunWaitingApproval, output := outcome.output);
        repository.SavePending(ended, outcome.st.steps, outcome.pending);
      } else {
        ended := run.(status := RunCompleted, output := RunOutput(outcome.st));
        repository.CompleteRun(ended, outcome.st.steps);
      }
    }

    /** executeRun: run the loop, store how it ended, record it. */
    method ExecuteRun(run: Run, g: Graph, input: Fields, st: State, ghost mode: Mode, ghost rec: Record, ghost pc: Pc)
      returns (ended: Run)
      requires g.Valid() && input == run.input && repository.Valid()
      requires Along(rec, pc, run.id, Starting(mode, run, g, st))
      modifies repository, audit
      ensures repository.Valid() && ended.id == run.id && run.id in repository.runs && repository.runs[run.id] == ended
      ensures mode.ByJob? ==> Along(rec, pc, run.id, Returned(mode.job, ended))
      ensures !mode.ByJob? ==> Done(rec, pc, run.id, Leave)
      ensures OthersAre(run.id, old(repository.Others(run.id)), old(audit.events - {run.id}))
      ensures var outcome := Continue(g, body, input, st);
              && Shows(RecordOf(run.id), outcome)
              && ended == run.(status := ended.status, error := ended.error, output := ended.output)
              && ended.error == if outcome.Broken? then outcome.error else run.error
      ensures st.steps <= repository.StepsOf(run.id)
      ensures Recorded(old(audit.LogOf(run.id)), Since(st.steps, repository.StepsOf(run.id)), ended.status,
                       audit.LogOf(run.id))
      ensures "" !in g.nodes && LastTold(st) ==> RanFrom(g, body, st.stepOutputs, st.steps, RecordOf(run.id))
    {
      hide Reached, Continue, LocalStep, StoreOutcome, EndEvent, Recorded, Grown, Explained, RanFrom, Shows;
      ghost var others, events := repository.Others(run.id), audit.events - {run.id};
      ghost var before := RecordOf(run.id);
      audit.Create(run.id, RunStartedEvent);
      StartedStep(workflows, before, mode, run, g, st);
      AlongNext(rec, pc, run.id, before, Starting(mode, run, g, st), Walking(mode, run, g, st, Elements(st.queue)));

      assert OthersAre(run.id, others, events);
      var outcome := ContinueExecution(run, g, input, st, mode, rec, pc);
      before := RecordOf(run.id);
      ended := StoreRun(run, outcome, mode);
      assert OthersAre(run.id, others, events);
      ShownSteps(RecordOf(run.id), outcome);
      PassRecorded(old(audit.LogOf(run.id)), Since(st.steps, outcome.st.steps), ended.status, audit.LogOf(run.id));
      StoppedStep(workflows, before, mode, run, outcome);
      AlongNext(rec, pc, run.id, before, Stopped(mode, run, outcome), Written(mode, ended));

      before := RecordOf(run.id);
      audit.Create(run.id, EndEvent(ended.status));
      assert OthersAre(run.id, others, events);
      WrittenStep(workflows, before, mode, ended);
      if mode.ByJob? {
        AlongNext(rec, pc, run.id, before, Written(mode, ended), Returned(mode.job, ended));
      } else {
        assert Leaving(workflows, before, Written(mode, ended), RecordOf(run.id), Leave);
      }
      assert Shows(RecordOf(run.id), outcome) by {
        ShownStill(before, RecordOf(run.id), outcome);
      }
      if "" !in g.nodes && LastTold(st) {
        ShownRan(g, body, st, RecordOf(run.id));
      }
    }

    /** Create: a definition is stored exactly when the tenant is named and the validator accepts it. */
    method CreateWorkflow(workflowID: string, tenantID: string, d: Definition, httpToolOK: Fields -> bool)
      returns (r: Result<StoredWorkflow, seq<ValidationError>>)
      modifies this`workflows
      ensures r.Ok? <==> TrimSpace(tenantID) != "" && Accepted(d, httpToolOK)
      ensures r.Ok? ==> r.value == StoredWorkflow(tenantID, d) && workflows == old(workflows)[workflowID := r.value]
      ensures r.Err? ==> workflows == old(workflows)
      ensures AllAccepted(old(workflows), httpToolOK) ==> AllAccepted(workflows, httpToolOK)
    {
      if TrimSpace(tenantID) == "" {
        return Err([]);
      }
      var valid, errors := ValidateDefinition(d, httpToolOK);
      if !valid {
        return Err(errors);
      }
      var stored := StoredWorkflow(tenantID, d);
      workflows := workflows[workflowID := stored];
      return Ok(stored);
    }

    /** What was accepted can be run: for its own tenant a stored workflow always resolves to a graph. */
    lemma StoredResolvesFor(tenantID: string, workflowID: string, httpToolOK: Fields -> bool)
      requires AllAccepted(workflows, httpToolOK)
      ensures Resolve(workflows, tenantID, workflowID).Ok?
         <==> workflowID in workflows && workflows[workflowID].tenantID == tenantID
    {
      if workflowID in workflows {
        AcceptedBuilds(workflows[workflowID].definition, httpToolOK);
        hide Accepted, Roots;
      }
    }

    method ResolveWorkflow(tenantID: string, workflowID: string) returns (r: Result<Graph, string>)
      ensures r == Resolve(workflows, tenantID, workflowID)
    {
      if workflowID !in workflows || workflows[workflowID].tenantID != tenantID {
        return Err("workflow not found");
      }
      r := BuildGraph(workflows[workflowID].definition);
    }

    /** A queued run whose workflow resolves was run from its roots, on the merged input. */
    ghost predicate Claimed(rec: Record, job: Job, rec': Record)
      reads this
    {
      var dest := CheckJob(workflows, rec, job);
      dest.Stay? && dest.pc.Checked? ==>
        && dest.pc.g.Valid() && rec'.run.input == dest.pc.run.input
        && Shows(rec', Continue(dest.pc.g, body, dest.pc.run.input, NewState(dest.pc.g.roots)))
    }

    lemma FirstPassAttempted(g: Graph, was: Record, job: Job, claimed: Run, st: State, now: Record)
      requires g.Valid() && st == NewState(g.roots) && Shows(now, Continue(g, body, claimed.input, st))
      requires claimed == was.run.(
                 status := RunRunning, attempt := job.attempt + 1, input := MergeInput(was.run.input, job.input),
                 maxAttempts := if job.maxAttempts > 0 then job.maxAttempts else was.run.maxAttempts)
      requires now.run == claimed.(status := now.run.status, output := now.run.output, error := now.run.error)
      requires var o := Continue(g, body, claimed.input, st);
               now.run.error == if o.Broken? then o.error else claimed.error
      requires st.steps <= now.steps && Recorded(was.log, Since(st.steps, now.steps), now.run.status, now.log)
      requires "" !in g.nodes ==> RanFrom(g, body, st.stepOutputs, st.steps, now)
      ensures Attempted(g, body, was, job, now)
    {
      hide Continue, Shows, Recorded, RanFrom, MergeInput;
      ErrorKept(now, Continue(g, body, claimed.input, st), claimed.error);
      assert Since(st.steps, now.steps) == now.steps;
      PassAttempted(g, body, was, job, claimed, now);
    }

    /** ProcessAsyncJob: check the run, claim it, run it. */
    method ProcessAsyncJob(job: Job) returns (r: Result<Run, string>)
      requires repository.Valid()
      modifies repository, audit
      ensures repository.Valid()
      ensures r.Ok? ==>
                && job.runID in old(repository.runs)
                && CheckJob(workflows, old(RecordOf(job.runID)), job) != Leave
                && Along(old(RecordOf(job.runID)), Holding(job), job.runID, Returned(job, r.value))
                && repository.runs[job.runID] == r.value && r.value.id == job.runID
                && Claimed(old(RecordOf(job.runID)), job, RecordOf(job.runID))
                && Called(workflows, body, old(RecordOf(job.runID)), job, RecordOf(job.runID))
      ensures r.Ok? <==> TrimSpace(job.tenantID) != "" && job.runID in old(repository.runs)
                         && old(repository.runs[job.runID].tenantID) == job.tenantID
      ensures r.Err? ==>
                && unchanged(repository) && unchanged(audit)
                && (job.runID in repository.runs ==> CheckJob(workflows, RecordOf(job.runID), job) == Leave)
      ensures OthersAre(job.runID, old(repository.Others(job.runID)), old(audit.events - {job.runID}))
    {
      hide Reached, Resolve, TrimSpace, MergeInput, LocalStep, Shows, Continue, Attempted, Found, Recorded, RanFrom;
      if TrimSpace(job.tenantID) == "" {
        return Err("invalid tenant");
      }
      var found := repository.GetRun(job.tenantID, job.runID);
      if found.Err? {
        return Err(found.error);
      }
      var run := found.value;
      ghost var rec := RecordOf(job.runID);
      ReachedSelf(workflows, body, rec, Holding(job));
      HoldingSteps(workflows, rec, job, run, Graph(map[], map[], []));
      if run.status != RunQueued {
        AlongNext(rec, Holding(job), job.runID, rec, Holding(job), Returned(job, run));
        return Ok(run);
      }

      var graph := ResolveWorkflow(job.tenantID, job.workflowID);
      ResolvedFound(workflows, job.tenantID, job.workflowID);
      if graph.Err? {
        run := run.(status := RunFailed, error := graph.error);
        HoldingSteps(workflows, rec, job, run, Graph(map[], map[], []));
        AlongNext(rec, Holding(job), job.runID, rec, Holding(job), Unresolvable(job, run));
        repository.CompleteRun(run, []);
        AlongNext(rec, Holding(job), job.runID, rec, Unresolvable(job, run), Returned(job, run));
        return Ok(run);
      }

      run := run.(status := RunRunning, attempt := job.attempt + 1);
      if job.maxAttempts > 0 {
        run := run.(maxAttempts := job.maxAttempts);
      }
      run := run.(input := MergeInput(run.input, job.input));
      HoldingSteps(workflows, rec, job, run, graph.value);
      AlongNext(rec, Holding(job), job.runID, rec, Holding(job), Checked(job, run, graph.value));
      repository.UpdateRun(run);
      var st := NewState(graph.value.roots);
      AlongNext(rec, Holding(job), job.runID, rec, Checked(job, run, graph.value),
                Starting(ByJob(job), run, graph.value, st));
      ResolvedValid(workflows, job.tenantID, job.workflowID);
      ghost var claimed := run;
      run := ExecuteRun(run, graph.value, run.input, st, ByJob(job), rec, Holding(job));
      FirstPassAttempted(graph.value, rec, job, claimed, st, RecordOf(job.runID));
      return Ok(run);
    }

    /** MarkAsyncRetry: the run goes back to queued, and the retry is recorded. */
    method MarkAsyncRetry(run: Run, delay: int) returns (queued: Run)
      requires repository.Valid() && run.id in repository.runs
      modifies repository, audit
      ensures repository.Valid() && run.id in repository.runs
      ensures queued == run.(status := RunQueued, output := RetryOutput(run, delay))
      ensures RecordOf(run.id) == RecordEvent(UpdateRun(old(RecordOf(run.id)), queued), RetryScheduledEvent(delay))
      ensures OthersAre(run.id, old(repository.Others(run.id)), old(audit.events - {run.id}))
    {
      queued := run.(status := RunQueued, output := RetryOutput(run, delay));
      repository.UpdateRun(queued);
      audit.Create(run.id, RetryScheduledEvent(delay));
    }

    /** MarkDeadLetter: the run is given up, and that is recorded. */
    method MarkDeadLetter(run: Run) returns (dead: Run)
      requires repository.Valid() && run.id in repository.runs
      modifies repository, audit
      ensures repository.Valid() && run.id in repository.runs
      ensures dead == run.(status := RunDeadLetter, output := DeadLetterOutput(run))
      ensures RecordOf(run.id) == RecordEvent(UpdateRun(old(RecordOf(run.id)), dead), RunDeadLetteredEvent)
      ensures OthersAre(run.id, old(repository.Others(run.id)), old(audit.events - {run.id}))
    {
      dead := run.(status := RunDeadLetter, output := DeadLetterOutput(run));
      repository.UpdateRun(dead);
      audit.Create(run.id, RunDeadLetteredEvent);
    }

    lemma AlongTo(rec: Record, pc: Pc, before: Record, was: Pc, after: Record, now: Pc)
      requires Reached(workflows, body, rec, pc, before, was)
      requires LocalStep(workflows, before, was, NodeResult(body, was)) == Effect(after, Stay(now))
      ensures Reached(workflows, body, rec, pc, after, now)
    {
      ReachedStep(workflows, body, rec, pc, before, was, LocalStep(workflows, before, was, NodeResult(body, was)));
    }

    /** The only new timer, if any, is the one that carries the retry. */
    ghost predicate Scheduled(before: map<nat, Timer>, after: map<nat, Timer>, dest: Dest) {
      if dest.ToTimer? then exists t :: t in after && t !in before && after == before[t := Timer(dest.job, dest.delay)]
      else after == before
    }

    /** ProcessNext after ProcessAsyncJob returned: retry with backoff, or give up. */
    method Settle(returned: Job, run: Run, ghost rec: Record) returns (ghost dest: Dest)
      requires repository.Valid() && queue.Valid() && run.id == returned.runID
      requires Along(rec, Holding(returned), returned.runID, Returned(returned, run))
      requires repository.runs[returned.runID] == run
      modifies repository, audit, queue
      ensures repository.Valid() && queue.Valid() && queue.jobs == old(queue.jobs)
      ensures Done(rec, Holding(returned), returned.runID, dest)
      ensures dest.Leave? || dest.ToTimer?
      ensures Scheduled(old(queue.timers), queue.timers, dest)
      ensures Settled(old(RecordOf(returned.runID)), returned, RecordOf(returned.runID), dest)
      ensures OthersAre(returned.runID, old(repository.Others(returned.runID)), old(audit.events - {returned.runID}))
    {
      hide Reached, RetryDelay, RetryOutput, DeadLetterOutput, LocalStep;
      var job := returned;
      ghost var before := RecordOf(job.runID);
      SettlingSteps(workflows, before, job, run, 0);
      if run.status != RunFailed {
        dest := Leave;
        assert Leaving(workflows, before, Returned(returned, run), RecordOf(job.runID), Leave);
        return;
      }
      if run.attempt < run.maxAttempts {
        job := job.(attempt := run.attempt, maxAttempts := run.maxAttempts);
        var delay := RetryDelay(BASE_BACKOFF, run.attempt);
        var queued := MarkAsyncRetry(run, delay);
        ghost var marked := UpdateRun(before, queued);
        SettlingSteps(workflows, marked, job, run, delay);
        AlongTo(rec, Holding(returned), before, Returned(returned, run), marked, Requeued(job, delay));
        AlongNext(rec, Holding(returned), job.runID, marked, Requeued(job, delay), Scheduling(job, delay));
        var timer := queue.EnqueueAfter(job, delay);
        SettlingSteps(workflows, RecordOf(job.runID), job, run, delay);
        dest := ToTimer(job, delay);
        RetrySettles(before, returned, queued, delay);
        assert Leaving(workflows, RecordOf(job.runID), Scheduling(job, delay), RecordOf(job.runID), dest);
        return;
      }
      var dead := MarkDeadLetter(run);
      ghost var marked := UpdateRun(before, dead);
      SettlingSteps(workflows, marked, job, dead, 0);
      AlongTo(rec, Holding(returned), before, Returned(returned, run), marked, DeadLettered(dead));
      dest := Leave;
      BurialSettles(before, job, dead);
      assert Leaving(workflows, marked, DeadLettered(dead), RecordOf(job.runID), Leave);
    }

    /**
     * ProcessNext: take the oldest job, and carry it through the protocol's worker steps to the last one.
     * A job whose run cannot be read is dropped.
     */
    method ProcessNext() returns (processed: bool, ghost dest: Dest)
      requires repository.Valid() && queue.Valid()
      modifies repository, audit, queue
      ensures repository.Valid() && queue.Valid()
      ensures processed <==> old(queue.jobs) != []
      ensures !processed ==>
                unchanged(repository) && unchanged(audit) && queue.jobs == [] && queue.timers == old(queue.timers)
      ensures processed ==>
                var job := old(queue.jobs)[0];
                && queue.jobs == old(queue.jobs)[1..]
                && OthersAre(job.runID, old(repository.Others(job.runID)), old(audit.events - {job.runID}))
                && if job.runID in old(repository.runs)
                      && CheckJob(workflows, old(RecordOf(job.runID)), job) != Leave then
                     Done(old(RecordOf(job.runID)), Holding(job), job.runID, dest)
                   else unchanged(repository) && unchanged(audit) && dest == Leave
      ensures processed ==>
                var job := old(queue.jobs)[0];
                if TrimSpace(job.tenantID) != "" && job.runID in old(repository.runs)
                   && old(repository.runs[job.runID].tenantID) == job.tenantID then
                  job.runID in repository.runs
                  && exists called ::
                       && Called(workflows, body, old(RecordOf(job.runID)), job, called)
                       && Settled(called, job, RecordOf(job.runID), dest)
                else unchanged(repository) && unchanged(audit) && dest == Leave
      ensures dest.Leave? || (processed && dest.ToTimer?)
      ensures Scheduled(old(queue.timers), queue.timers, dest)
    {
      hide Reached, LocalStep, CheckJob, Settled, Called, TrimSpace;
      dest := Leave;
      var next := queue.Dequeue();
      if next.None? {
        return false, Leave;
      }
      var job := next.value;
      ghost var known := job.runID in repository.runs;
      ghost var rec := if known then RecordOf(job.runID) else CreateRun(NewRun("", "", "", RunQueued, Async, 0, map[]));
      var r := ProcessAsyncJob(job);
      if r.Err? {
        return true, Leave;
      }
      dest := Settle(job, r.value, rec);
      processed := true;
    }

    /** A generated identifier that nothing is stored under yet. */
    ghost predicate Unused(runID: string)
      reads repository, audit
    {
      runID !in repository.runs && runID !in repository.steps && runID !in repository.pending && runID !in audit.events
    }

    /** ExecuteAsync: store the run as queued, record that, and only then send its job. */
    method ExecuteAsync(
      runID: string, tenantID: string, workflowID: string, input: Fields)
      returns (r: Result<Run, string>)
      requires repository.Valid() && queue.Valid() && |queue.jobs| < queue.capacity && Unused(runID)
      modifies repository, audit, queue
      ensures repository.Valid() && queue.Valid() && queue.timers == old(queue.timers)
      ensures r.Ok? <==>
                TrimSpace(tenantID) != "" && workflowID in workflows && workflows[workflowID].tenantID == tenantID
      ensures r.Err? ==> unchanged(repository) && unchanged(audit) && unchanged(queue)
      ensures r.Ok? ==>
                var run := NewRun(runID, tenantID, workflowID, RunQueued, Async, MAX_ATTEMPTS, input);
                var job := Job(runID, tenantID, workflowID, 0, MAX_ATTEMPTS, input);
                && r.value == run && runID in repository.runs && repository.runs[runID] == run
                && queue.jobs == old(queue.jobs) + [job]
                && Done(CreateRun(run), Created(job), runID, ToChannel(job))
      ensures r.Ok? ==>
                && r.value == Run(runID, tenantID, workflowID, RunQueued, Async, 0, 3, input, Null, "")
                && queue.jobs == old(queue.jobs) + [Job(runID, tenantID, workflowID, 0, 3, input)]
                && runID in repository.runs && RecordOf(runID) == Record(r.value, [], None, [RunQueuedEvent])
      ensures OthersAre(runID, old(repository.Others(runID)), old(audit.events - {runID}))
    {
      hide Reached, TrimSpace;
      if TrimSpace(tenantID) == "" {
        return Err("invalid tenant");
      }
      if workflowID !in workflows || workflows[workflowID].tenantID != tenantID {
        return Err("workflow not found");
      }
      var run := NewRun(runID, tenantID, workflowID, RunQueued, Async, MAX_ATTEMPTS, input);
      repository.CreateRun(run);
      ghost var rec := RecordOf(runID);
      assert rec == CreateRun(run);
      var job := Job(runID, tenantID, workflowID, 0, MAX_ATTEMPTS, input);
      ReachedSelf(workflows, body, rec, Created(job));
      audit.Create(runID, RunQueuedEvent);
      AlongNext(rec, Created(job), runID, rec, Created(job), Announced(job));
      queue.Enqueue(job);
      assert Leaving(workflows, RecordOf(runID), Announced(job), RecordOf(runID), ToChannel(job));
      return Ok(run);
    }

    /** ExecuteSync: store the run as running, build its graph, run it. */
    method ExecuteSync(
      runID: string, tenantID: string, workflowID: string, input: Fields)
      returns (r: Result<Run, string>)
      requires repository.Valid() && Unused(runID)
      modifies repository, audit
      ensures repository.Valid()
      ensures r.Ok? <==> TrimSpace(tenantID) != "" && Resolve(workflows, tenantID, workflowID).Ok?
      ensures TrimSpace(tenantID) == "" || workflowID !in workflows || workflows[workflowID].tenantID != tenantID ==>
                unchanged(repository) && unchanged(audit)
      ensures r.Ok? ==>
                var run := NewRun(runID, tenantID, workflowID, RunRunning, Sync, 0, input);
                var g := Resolve(workflows, tenantID, workflowID).value;
                && Done(CreateRun(run), Starting(BySync, run, g, NewState(g.roots)), runID, Leave)
                && runID in repository.runs && repository.runs[runID] == r.value
                && r.value == run.(status := r.value.status, error := r.value.error, output := r.value.output)
                && g.Valid() && Shows(RecordOf(runID), Continue(g, body, input, NewState(g.roots)))
      ensures r.Ok? <==> TrimSpace(tenantID) != "" && exists g :: Found(workflows, tenantID, workflowID, g)
      ensures r.Ok? ==>
                && r.value == Run(runID, tenantID, workflowID, r.value.status, Sync, 0, 0, input, r.value.output,
                                  r.value.error)
                && (r.value.status != RunFailed ==> r.value.error == "")
                && runID in repository.runs
                && Recorded([], repository.StepsOf(runID), r.value.status, audit.LogOf(runID))
                && exists g :: Found(workflows, tenantID, workflowID, g)
                               && ("" !in g.nodes ==> RanFrom(g, body, map[], [], RecordOf(runID)))
      ensures OthersAre(runID, old(repository.Others(runID)), old(audit.events - {runID}))
    {
      hide Reached, TrimSpace, Recorded, RanFrom, Found, Continue, Shows;
      ResolvedFound(workflows, tenantID, workflowID);
      if TrimSpace(tenantID) == "" {
        return Err("invalid tenant");
      }
      if workflowID !in workflows || workflows[workflowID].tenantID != tenantID {
        return Err("workflow not found");
      }
      var run := NewRun(runID, tenantID, workflowID, RunRunning, Sync, 0, input);
      repository.CreateRun(run);
      var graph := ResolveWorkflow(tenantID, workflowID);
      if graph.Err? {
        return Err(graph.error);
      }
      ghost var rec := RecordOf(runID);
      assert rec == CreateRun(run);
      var st := NewState(graph.value.roots);
      ReachedSelf(workflows, body, rec, Starting(BySync, run, graph.value, st));
      ResolvedValid(workflows, tenantID, workflowID);
      run := ExecuteRun(run, graph.value, input, st, BySync, rec, Starting(BySync, run, graph.value, st));
      ErrorKept(RecordOf(runID), Continue(graph.value, body, input, st), "");
      assert Since(st.steps, repository.StepsOf(runID)) == repository.StepsOf(runID);
      assert audit.LogOf(runID) == RecordOf(runID).log && rec.log == [];
      return Ok(run);
    }

    /** A rejected run is stored as failed, with its waiting step resolved. */
    method Reject(run: Run, steps: seq<Step>, ghost rec: Record, ghost pc: Pc)
      requires repository.Valid() && run.status == RunFailed && Along(rec, pc, run.id, Rejecting(run, steps))
      modifies repository, audit
      ensures repository.Valid() && Done(rec, pc, run.id, Leave) && repository.runs[run.id] == run
      ensures RecordOf(run.id) == Record(run, steps, None, old(audit.LogOf(run.id)) + [RunFailedEvent])
      ensures OthersAre(run.id, old(repository.Others(run.id)), old(audit.events - {run.id}))
    {
      hide Reached;
      ghost var before := RecordOf(run.id);
      repository.CompleteRun(run, steps);
      AlongNext(rec, pc, run.id, before, Rejecting(run, steps), Written(ByResume, run));
      before := RecordOf(run.id);
      audit.Create(run.id, RunFailedEvent);
      assert Leaving(workflows, before, Written(ByResume, run), RecordOf(run.id), Leave);
    }

    /** ResumeApproval once the pending record is loaded and the graph is built. */
    method ResolveWaiting(loaded: Run, stored: seq<Step>, pending: Pending, approved: bool, comment: string, g: Graph)
      returns (r: Result<Run, string>)
      requires repository.Valid() && g.Valid() && loaded.id in repository.runs
      modifies repository, audit
      ensures repository.Valid()
      ensures Done(old(RecordOf(loaded.id)), Loaded(loaded, stored, pending, approved, comment, g), loaded.id, Leave)
      ensures r.Ok? ==> loaded.id in repository.runs && repository.runs[loaded.id] == r.value
      ensures r.Ok? <==> stored != [] && stored[|stored| - 1].nodeID == pending.waitingNodeID
      ensures r.Ok? && approved ==>
                && r.value == loaded.(status := r.value.status, error := r.value.error, output := r.value.output)
                && Shows(RecordOf(loaded.id),
                         Continue(g, body, loaded.input, Thaw(stored, pending, Decision(true, comment))))
      ensures r.Ok? ==>
                var was := Record(loaded, stored, Some(pending), old(audit.LogOf(loaded.id)));
                && r.value.input == loaded.input
                && if approved then GoesOn(g, body, was, comment, RecordOf(loaded.id))
                   else Refuses(was, comment, RecordOf(loaded.id))
      ensures OthersAre(loaded.id, old(repository.Others(loaded.id)), old(audit.events - {loaded.id}))
    {
      hide Reached, Decision, GoesOn, Refuses, Recorded, RanFrom, Continue, Shows;
      var run, steps := loaded, stored;
      ghost var rec := RecordOf(run.id);
      ghost var start := Loaded(run, steps, pending, approved, comment, g);
      ReachedSelf(workflows, body, rec, start);
      if |steps| == 0 || steps[|steps| - 1].nodeID != pending.waitingNodeID {
        assert Leaving(workflows, rec, start, rec, Leave);
        return Err("workflow run is not awaiting approval");
      }

      var decision := Decision(approved, comment);
      steps := steps[|steps| - 1 := steps[|steps| - 1].(status := Completed, output := decision)];
      audit.Create(run.id, ApprovalResolvedEvent(pending.waitingNodeID));

      if !approved {
        run := run.(status := RunFailed, error := "approval rejected",
                    output := Object(map["failed_node" := Str(pending.waitingNodeID), "approval" := decision]));
        AlongNext(rec, start, run.id, rec, start, Rejecting(run, steps));
        Reject(run, steps, rec, start);
        RejectionRefuses(Record(loaded, stored, Some(pending), rec.log), comment, RecordOf(run.id));
        return Ok(run);
      }

      var st := State(steps, pending.stepOutputs[pending.waitingNodeID := decision], pending.waitingNodeID,
                      pending.queue, pending.executed + {pending.waitingNodeID});
      run := run.(status := RunRunning, error := "", output := Null);
      AlongNext(rec, start, run.id, rec, start, Starting(ByResume, run, g, st));
      ghost var resumed := run;
      run := ExecuteRun(run, g, run.input, st, ByResume, rec, start);
      ErrorKept(RecordOf(run.id), Continue(g, body, loaded.input, st), "");
      ApprovalGoesOn(g, body, Record(loaded, stored, Some(pending), rec.log), comment, resumed, st, RecordOf(run.id));
      return Ok(run);
    }

    /** ResumeApproval: load the pending record, resolve the waiting step, and reject or go on. */
    method ResumeApproval(tenantID: string, runID: string, approved: bool, comment: string, input: Fields)
      returns (r: Result<Run, string>)
      requires repository.Valid()
      modifies repository, audit
      ensures repository.Valid()
      ensures var resumable := TrimSpace(tenantID) != "" && runID in old(repository.runs)
                && old(repository.runs[runID].tenantID) == tenantID && runID in old(repository.pending)
                && Resolve(workflows, tenantID, old(repository.runs[runID].workflowID)).Ok?;
              && (!resumable ==> r.Err? && unchanged(repository) && unchanged(audit))
              && (resumable ==>
                    var run := old(repository.runs[runID]);
                    var g := Resolve(workflows, tenantID, run.workflowID).value;
                    Done(old(RecordOf(runID)),
                         Loaded(run.(input := MergeInput(run.input, input)), old(repository.StepsOf(runID)),
                                old(repository.pending[runID]), approved, comment, g),
                         runID, Leave))
      ensures r.Ok? <==>
                && TrimSpace(tenantID) != "" && runID in old(repository.runs)
                && old(repository.runs[runID].tenantID) == tenantID && runID in old(repository.pending)
                && Resolve(workflows, tenantID, old(repository.runs[runID].workflowID)).Ok?
                && var steps := old(repository.StepsOf(runID));
                   steps != [] && steps[|steps| - 1].nodeID == old(repository.pending[runID]).waitingNodeID
      ensures r.Ok? ==> runID in repository.runs && repository.runs[runID] == r.value
      ensures r.Ok? && approved ==>
                && r.value.tenantID == tenantID && r.value.workflowID == old(repository.runs[runID]).workflowID
                && Resumes(Resolve(workflows, tenantID, old(repository.runs[runID].workflowID)).value, body, input,
                           Decision(true, comment), old(RecordOf(runID)), RecordOf(runID))
      ensures r.Ok? ==> Overlays(repository.runs[runID].input, old(repository.runs[runID].input), input)
      ensures r.Ok? && !approved ==> Refuses(old(RecordOf(runID)), comment, RecordOf(runID))
      ensures r.Ok? && approved ==>
                exists g :: Found(workflows, tenantID, old(repository.runs[runID].workflowID), g)
                            && GoesOn(g, body, old(RecordOf(runID)), comment, RecordOf(runID))
      ensures OthersAre(runID, old(repository.Others(runID)), old(audit.events - {runID}))
    {
      hide Reached, Resolve, MergeInput, Decision, Shows, Continue, Thaw, Done, TrimSpace, Overlays, Refuses, GoesOn,
           Found;
      if TrimSpace(tenantID) == "" {
        return Err("invalid tenant");
      }
      var loaded := repository.LoadPending(tenantID, runID);
      if loaded.Err? {
        return Err(loaded.error);
      }
      var (run, steps, pending) := loaded.value;
      ResolvedValid(workflows, tenantID, run.workflowID);
      var graph := ResolveWorkflow(tenantID, run.workflowID);
      if graph.Err? {
        return Err(graph.error);
      }
      ResolvedFound(workflows, tenantID, run.workflowID);
      MergeOverlays(run.input, input);
      ghost var was := RecordOf(runID);
      run := run.(input := MergeInput(run.input, input));
      r := ResolveWaiting(run, steps, pending, approved, comment, graph.value);
      if r.Ok? {
        InputAside(graph.value, body, was, run.input, comment, RecordOf(runID));
      }
    }
  }
}
