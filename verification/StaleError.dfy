/** A run that is stored as completed with an error, reached: its first attempt fails, its second finishes. */
module StaleError {
  import opened Text
  import opened Values
  import opened Workflow
  import opened Graphs
  import opened Engine
  import opened Backoff
  import opened Runs
  import opened Protocol
  import opened Singles
  import opened Solo
  import opened Interleaving
  import opened Stories

  /** Nothing is known of the nodes but that their errors have messages. */
  const LOUD := Rules(None, true)

  const MODEL_CALL := Node("a", "llm", map[])

  function G(): Graph {
    OneNodeGraphOf("llm")
  }

  function JobAt(n: nat): Job {
    Job("r", "t", "w", n, MAX_ATTEMPTS, map[])
  }

  predicate Ours(run: Run) {
    && run.id == "r" && run.tenantID == "t" && run.workflowID == "w" && run.trigger == Async
    && run.maxAttempts == MAX_ATTEMPTS && run.input == map[]
  }

  function Attempt(run: Run, n: nat): Run {
    run.(status := RunRunning, attempt := n + 1)
  }

  /** In the attempt that follows the n-th, before its only node. */
  function Begun(run: Run, n: nat): Where {
    Busy(Walking(ByJob(JobAt(n)), Attempt(run, n), G(), NewState(["a"]), {"a"}))
  }

  /** Some doings take the run there. */
  ghost predicate Leads(workflows: Workflows, rec: Record, w: Where, rec': Record, w': Where) {
    exists doings :: DoAll(LOUD, workflows, rec, w, doings) == Some((rec', w'))
  }

  lemma LeadsToItself(workflows: Workflows, rec: Record, w: Where)
    ensures Leads(workflows, rec, w, rec, w)
  {
    assert DoAll(LOUD, workflows, rec, w, []) == Some((rec, w));
  }

  lemma LeadsOn(
    workflows: Workflows, rec: Record, w: Where, rec': Record, w': Where, doing: Doing, rec'': Record, w'': Where)
    requires Leads(workflows, rec, w, rec', w')
    requires DoOne(LOUD, workflows, rec', w', doing) == Some((rec'', w''))
    ensures Leads(workflows, rec, w, rec'', w'')
  {
    hide DoAll, DoOne;
    var doings :| DoAll(LOUD, workflows, rec, w, doings) == Some((rec', w'));
    DoAllOneMore(LOUD, workflows, rec, w, doings, doing);
  }

  /** A step that does not wait for a node. */
  lemma Steps(workflows: Workflows, rec: Record, w: Where, rec': Record, pc: Pc)
    requires Leads(workflows, rec, w, rec', Busy(pc)) && (pc.Walking? ==> pc.st.queue == []) && Resolves(workflows, pc)
    ensures var e := LocalStep(workflows, rec', pc, Ok(Null));
            Leads(workflows, rec, w, e.rec, WhereTo(e.dest))
  {
    hide Leads, LocalStep, Resolves;
    var e := LocalStep(workflows, rec', pc, Ok(Null));
    LeadsOn(workflows, rec, w, rec', Busy(pc), Act(Ok(Null)), e.rec, WhereTo(e.dest));
  }

  // Claiming a queued run

  lemma HeldChecks(workflows: Workflows, rec: Record, n: nat)
    requires Resolve(workflows, "t", "w") == Ok(G()) && Ours(rec.run) && rec.run.status == RunQueued
    ensures Resolves(workflows, Holding(JobAt(n)))
    ensures LocalStep(workflows, rec, Holding(JobAt(n)), Ok(Null))
            == Effect(rec, Stay(Checked(JobAt(n), Attempt(rec.run, n), G())))
  {
    ShortNamesTrimmed();
    hide Resolve, TrimSpace;
    NothingMerges(map[]);
  }

  lemma CheckedStarts(workflows: Workflows, rec: Record, n: nat)
    ensures LocalStep(workflows, rec, Checked(JobAt(n), Attempt(rec.run, n), G()), Ok(Null))
            == Effect(UpdateRun(rec, Attempt(rec.run, n)),
                      Stay(Starting(ByJob(JobAt(n)), Attempt(rec.run, n), G(), NewState(["a"]))))
  {}

  lemma StartedWalks(workflows: Workflows, rec: Record, run: Run, n: nat)
    ensures LocalStep(workflows, rec, Starting(ByJob(JobAt(n)), Attempt(run, n), G(), NewState(["a"])), Ok(Null))
            == Effect(RecordEvent(rec, RunStartedEvent),
                      Stay(Walking(ByJob(JobAt(n)), Attempt(run, n), G(), NewState(["a"]), {"a"})))
  {
    assert Elements(["a"]) == {"a"};
  }

  lemma ClaimLeads(workflows: Workflows, rec: Record, w: Where, queued: Record, n: nat)
    requires Leads(workflows, rec, w, queued, Queued(JobAt(n)))
    requires Resolve(workflows, "t", "w") == Ok(G()) && Ours(queued.run) && queued.run.status == RunQueued
    ensures Leads(workflows, rec, w, RecordEvent(UpdateRun(queued, Attempt(queued.run, n)), RunStartedEvent),
                  Begun(queued.run, n))
  {
    hide Leads, LocalStep, Resolve, Ours, Resolves;
    var run := queued.run;
    LeadsOn(workflows, rec, w, queued, Queued(JobAt(n)), Take, queued, Busy(Holding(JobAt(n))));
    HeldChecks(workflows, queued, n);
    Steps(workflows, rec, w, queued, Holding(JobAt(n)));
    NeedsNothing(workflows, Checked(JobAt(n), Attempt(run, n), G()));
    Steps(workflows, rec, w, queued, Checked(JobAt(n), Attempt(run, n), G()));
    CheckedStarts(workflows, queued, n);
    NeedsNothing(workflows, Starting(ByJob(JobAt(n)), Attempt(run, n), G(), NewState(["a"])));
    Steps(workflows, rec, w, UpdateRun(queued, Attempt(run, n)),
          Starting(ByJob(JobAt(n)), Attempt(run, n), G(), NewState(["a"])));
    StartedWalks(workflows, UpdateRun(queued, Attempt(run, n)), run, n);
  }

  lemma NeedsNothing(workflows: Workflows, pc: Pc)
    requires !pc.Holding?
    ensures Resolves(workflows, pc)
  {}

  // Failing, and being marked for retry

  lemma NodeFails(workflows: Workflows, rec: Record, run: Run, n: nat, error: string) returns (o: Outcome)
    requires error != ""
    ensures o.Broken? && o.error == error
    ensures DoOne(LOUD, workflows, rec, Begun(run, n), Act(Err(error)))
            == Some((RecordEvent(rec, StepFailedEvent("a")), Busy(Stopped(ByJob(JobAt(n)), Attempt(run, n), o))))
  {
    o := Broken(Break(G(), NewState(["a"]), error), "a", error);
  }

  lemma BrokenStored(workflows: Workflows, rec: Record, job: Job, run: Run, o: Outcome) returns (failed: Run)
    requires o.Broken?
    ensures failed == run.(status := RunFailed, error := o.error, output := failed.output)
    ensures LocalStep(workflows, rec, Stopped(ByJob(job), run, o), Ok(Null))
            == Effect(CompleteRun(rec, failed, o.st.steps), Stay(Written(ByJob(job), failed)))
  {
    failed := run.(status := RunFailed, error := o.error, output := Object(map["failed_node" := Str(o.nodeID)]));
  }

  lemma EndTold(workflows: Workflows, rec: Record, job: Job, run: Run)
    ensures LocalStep(workflows, rec, Written(ByJob(job), run), Ok(Null))
            == Effect(RecordEvent(rec, EndEvent(run.status)), Stay(Returned(job, run)))
  {}

  lemma MarkedForRetry(workflows: Workflows, rec: Record, run: Run, n: nat) returns (again: Run, delay: int)
    requires run.status == RunFailed && run.attempt == n + 1 < MAX_ATTEMPTS == run.maxAttempts
    ensures again == run.(status := RunQueued, output := again.output)
    ensures LocalStep(workflows, rec, Returned(JobAt(n), run), Ok(Null))
            == Effect(UpdateRun(rec, again), Stay(Requeued(JobAt(n + 1), delay)))
  {
    hide RetryOutput, RetryDelay;
    delay := RetryDelay(BASE_BACKOFF, run.attempt);
    again := run.(status := RunQueued, output := RetryOutput(run, delay));
  }

  lemma SentAgain(workflows: Workflows, rec: Record, w: Where, marked: Record, job: Job, delay: int)
    requires Leads(workflows, rec, w, marked, Busy(Requeued(job, delay)))
    ensures Leads(workflows, rec, w, RecordEvent(marked, RetryScheduledEvent(delay)), Queued(job))
  {
    hide Leads;
    Steps(workflows, rec, w, marked, Requeued(job, delay));
    Steps(workflows, rec, w, RecordEvent(marked, RetryScheduledEvent(delay)), Scheduling(job, delay));
  }

  lemma Fails(workflows: Workflows, rec: Record, w: Where, claimed: Record, run: Run, n: nat, error: string)
    returns (again: Record)
    requires Leads(workflows, rec, w, claimed, Begun(run, n)) && Ours(run) && n + 1 < MAX_ATTEMPTS && error != ""
    ensures Leads(workflows, rec, w, again, Queued(JobAt(n + 1)))
    ensures Ours(again.run) && again.run.status == RunQueued && again.run.error == error
  {
    hide Leads, LocalStep, DoOne, Resolves;
    var o := NodeFails(workflows, claimed, run, n, error);
    var broken := RecordEvent(claimed, StepFailedEvent("a"));
    var pc := Stopped(ByJob(JobAt(n)), Attempt(run, n), o);
    LeadsOn(workflows, rec, w, claimed, Begun(run, n), Act(Err(error)), broken, Busy(pc));
    NeedsNothing(workflows, pc);
    Steps(workflows, rec, w, broken, pc);
    var failed := BrokenStored(workflows, broken, JobAt(n), Attempt(run, n), o);
    var stored := CompleteRun(broken, failed, o.st.steps);
    NeedsNothing(workflows, Written(ByJob(JobAt(n)), failed));
    Steps(workflows, rec, w, stored, Written(ByJob(JobAt(n)), failed));
    EndTold(workflows, stored, JobAt(n), failed);
    var told := RecordEvent(stored, EndEvent(failed.status));
    NeedsNothing(workflows, Returned(JobAt(n), failed));
    Steps(workflows, rec, w, told, Returned(JobAt(n), failed));
    var run', delay := MarkedForRetry(workflows, told, failed, n);
    SentAgain(workflows, rec, w, UpdateRun(told, run'), JobAt(n + 1), delay);
    again := RecordEvent(UpdateRun(told, run'), RetryScheduledEvent(delay));
  }

  // Finishing

  lemma NodeReturns(workflows: Workflows, rec: Record, run: Run, n: nat) returns (st: State, queued: set<string>)
    ensures st.queue == []
    ensures DoOne(LOUD, workflows, rec, Begun(run, n), Act(Ok(Null)))
            == Some((RecordEvent(rec, StepCompletedEvent("a")),
                     Busy(Walking(ByJob(JobAt(n)), Attempt(run, n), G(), st, queued))))
  {
    var next := Complete(G(), NewState(["a"]), {"a"}, Null);
    st, queued := next.0, next.1;
    assert Next(G(), MODEL_CALL, Null) == [];
  }

  lemma FinishedStored(workflows: Workflows, rec: Record, job: Job, run: Run, st: State) returns (ended: Run)
    ensures ended == run.(status := RunCompleted, output := ended.output)
    ensures LocalStep(workflows, rec, Stopped(ByJob(job), run, Finished(st)), Ok(Null))
            == Effect(CompleteRun(rec, ended, st.steps), Stay(Written(ByJob(job), ended)))
  {
    hide RunOutput;
    ended := run.(status := RunCompleted, output := RunOutput(st));
  }

  lemma Finishes(workflows: Workflows, rec: Record, w: Where, claimed: Record, run: Run, n: nat)
    returns (ended: Record)
    requires Leads(workflows, rec, w, claimed, Begun(run, n))
    ensures Leads(workflows, rec, w, ended, Resting)
    ensures ended.run.status == RunCompleted && ended.run.error == run.error && ended.run.id == run.id
  {
    hide Leads, LocalStep, DoOne, Resolves;
    var job := JobAt(n);
    var st, queued := NodeReturns(workflows, claimed, run, n);
    var done := RecordEvent(claimed, StepCompletedEvent("a"));
    var walking := Walking(ByJob(job), Attempt(run, n), G(), st, queued);
    LeadsOn(workflows, rec, w, claimed, Begun(run, n), Act(Ok(Null)), done, Busy(walking));
    NeedsNothing(workflows, walking);
    Steps(workflows, rec, w, done, walking);
    WalkEnds(workflows, done, walking);
    var stopped := Stopped(ByJob(job), Attempt(run, n), Finished(st));
    NeedsNothing(workflows, stopped);
    Steps(workflows, rec, w, done, stopped);
    var run' := FinishedStored(workflows, done, job, Attempt(run, n), st);
    var stored := CompleteRun(done, run', st.steps);
    NeedsNothing(workflows, Written(ByJob(job), run'));
    Steps(workflows, rec, w, stored, Written(ByJob(job), run'));
    EndTold(workflows, stored, job, run');
    ended := RecordEvent(stored, EndEvent(run'.status));
    NeedsNothing(workflows, Returned(job, run'));
    Steps(workflows, rec, w, ended, Returned(job, run'));
    CompletedIsLeft(workflows, ended, job, run');
  }

  lemma WalkEnds(workflows: Workflows, rec: Record, pc: Pc)
    requires pc.Walking? && pc.st.queue == []
    ensures LocalStep(workflows, rec, pc, Ok(Null)) == Effect(rec, Stay(Stopped(pc.mode, pc.run, Finished(pc.st))))
  {}

  lemma CompletedIsLeft(workflows: Workflows, rec: Record, job: Job, run: Run)
    requires run.status == RunCompleted
    ensures LocalStep(workflows, rec, Returned(job, run), Ok(Null)) == Effect(rec, Leave)
  {}

  // The whole story, and a history that plays it

  function NewOne(): Run {
    NewRun("r", "t", "w", RunQueued, Async, MAX_ATTEMPTS, map[])
  }

  lemma FirstQueued(workflows: Workflows)
    ensures Leads(workflows, CreateRun(NewOne()), Busy(Created(JobAt(0))),
                  RecordEvent(CreateRun(NewOne()), RunQueuedEvent), Queued(JobAt(0)))
  {
    hide Leads;
    var rec, w := CreateRun(NewOne()), Busy(Created(JobAt(0)));
    LeadsToItself(workflows, rec, w);
    Steps(workflows, rec, w, rec, Created(JobAt(0)));
    Steps(workflows, rec, w, RecordEvent(rec, RunQueuedEvent), Announced(JobAt(0)));
  }

  lemma FailsThenFinishes(workflows: Workflows, error: string) returns (ended: Record)
    requires Resolve(workflows, "t", "w") == Ok(G()) && error != ""
    ensures Leads(workflows, CreateRun(NewOne()), Busy(Created(JobAt(0))), ended, Resting)
    ensures ended.run.status == RunCompleted && ended.run.error == error
  {
    hide Leads, Resolve;
    var rec, w := CreateRun(NewOne()), Busy(Created(JobAt(0)));
    FirstQueued(workflows);
    var queued := RecordEvent(rec, RunQueuedEvent);
    ClaimLeads(workflows, rec, w, queued, 0);
    var again := Fails(workflows, rec, w, RecordEvent(UpdateRun(queued, Attempt(queued.run, 0)), RunStartedEvent),
                       queued.run, 0, error);
    ClaimLeads(workflows, rec, w, again, 1);
    ended := Finishes(workflows, rec, w, RecordEvent(UpdateRun(again, Attempt(again.run, 1)), RunStartedEvent),
                      again.run, 1);
  }

  lemma WorkflowStored(httpToolOK: Fields -> bool)
    ensures AfterBy(LOUD, 1, [StoreOneNode("llm")], httpToolOK) == Some(OneNodeSystem("llm"))
  {
    var act := StoreOneNode("llm");
    OneNodeStored("llm", httpToolOK);
    hide Enabled, Serial, Apply, OneNodeSystem, OneNode;
    assert [act][..0] == [];
    assert AfterBy(LOUD, 1, [], httpToolOK) == Some(Initial(1));
  }

  lemma NewOneIsBorn(workflows: Workflows)
    requires Resolve(workflows, "t", "w") == Ok(G())
    ensures Born(workflows, CreateRun(NewOne()), Busy(Created(JobAt(0))))
  {
    ShortNamesTrimmed();
    hide Resolve, TrimSpace;
  }

  /**
   * Whatever message the first attempt of a run fails with, a history, with resumes serial and every node error
   * with a message, leaves the run at rest completed with that error: its retry succeeded and did not clear it.
   */
  lemma SucceededRetryKeepsError(error: string, httpToolOK: Fields -> bool) returns (s: System)
    requires error != ""
    ensures ReachableBy(LOUD, s, httpToolOK) && "r" in s.db
    ensures s.db["r"].run.status == RunCompleted && s.db["r"].run.error == error
    ensures IsWhere(s, "r", Resting)
  {
    hide AfterBy, DoAll, Born, Resolve, Leads, IsWhere;
    var workflows := OneNodeSystem("llm").workflows;
    var history := [StoreOneNode("llm")];
    WorkflowStored(httpToolOK);
    OneNodeResolves(workflows, "llm");
    NewOneIsBorn(workflows);
    var ended := FailsThenFinishes(workflows, error);
    var story := LedStory(workflows, CreateRun(NewOne()), Busy(Created(JobAt(0))), ended, Resting);
    var history': seq<Action>;
    history', s := EveryStoryHappens(LOUD, 1, history, OneNodeSystem("llm"), story, ended, Resting, httpToolOK);
  }

  lemma LedStory(workflows: Workflows, birth: Record, start: Where, rec: Record, w: Where) returns (story: Story)
    requires Leads(workflows, birth, start, rec, w) && Born(workflows, birth, start)
    ensures OwnDoing(LOUD, workflows, rec, w, story) && story.birth == birth
  {
    hide Born, DoAll;
    var doings :| DoAll(LOUD, workflows, birth, start, doings) == Some((rec, w));
    story := Story(birth, start, doings);
  }
}
