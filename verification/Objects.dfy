/** Between calls the service's objects are always a reachable state of the protocol, at rest. */
module Objects {
  import opened Text
  import opened Values
  import opened Workflow
  import opened Graphs
  import opened Engine
  import opened Backoff
  import opened Runs
  import opened Protocol
  import opened Observed
  import opened Safety
  import opened Guarantees
  import opened Stores
  import opened Executor
  import opened Sequential

  /** What the repository, the audit log and the queue hold is the state `s`, in which no call is under way. */
  ghost predicate Represents(service: Service, s: System)
    reads service, service.repository, service.audit, service.queue
  {
    && s.workflows == service.workflows && s.capacity == service.queue.capacity
    && s.channel == service.queue.jobs && s.timers == service.queue.timers && s.agents == map[]
    && RecordsAre(service, s.db)
  }

  ghost predicate RecordsAre(service: Service, db: map<string, Record>)
    reads service, service.repository, service.audit
  {
    DatabaseIs(db, service.repository.runs, service.repository.steps, service.repository.pending, service.audit.events)
  }

  predicate DatabaseIs(
    db: map<string, Record>, runs: map<string, Run>, steps: map<string, seq<Step>>, pending: map<string, Pending>,
    events: map<string, seq<Event>>)
  {
    && db.Keys == runs.Keys && steps.Keys <= db.Keys && pending.Keys <= db.Keys && events.Keys <= db.Keys
    && forall r :: r in db ==> db[r] == RecordIn(r, runs, steps, pending, events)
  }

  function RecordIn(
    r: string, runs: map<string, Run>, steps: map<string, seq<Step>>, pending: map<string, Pending>,
    events: map<string, seq<Event>>): Record
    requires r in runs
  {
    Record(runs[r], if r in steps then steps[r] else [], if r in pending then Some(pending[r]) else None,
           if r in events then events[r] else [])
  }

  ghost predicate InOrder(service: Service, s: System, httpToolOK: Fields -> bool)
    reads service, service.repository, service.audit, service.queue
  {
    && service.repository.Valid() && service.queue.Valid()
    && Represents(service, s) && Reachable(s, httpToolOK)
  }

  lemma MinusAgrees<V>(m: map<string, V>, m': map<string, V>, r: string)
    requires m - {r} == m' - {r}
    ensures forall k :: k != r ==> (k in m <==> k in m') && (k in m ==> m[k] == m'[k])
  {
    forall k | k != r ensures (k in m <==> k in m') && (k in m ==> m[k] == m'[k]) {
      assert k in m - {r} <==> k in m;
      assert k in m' - {r} <==> k in m';
    }
  }

  lemma DatabaseAfter(
    db: map<string, Record>, r: string, runs: map<string, Run>, steps: map<string, seq<Step>>,
    pending: map<string, Pending>, events: map<string, seq<Event>>, runs': map<string, Run>,
    steps': map<string, seq<Step>>, pending': map<string, Pending>, events': map<string, seq<Event>>)
    requires DatabaseIs(db, runs, steps, pending, events) && r in runs'
    requires runs' - {r} == runs - {r} && steps' - {r} == steps - {r}
    requires pending' - {r} == pending - {r} && events' - {r} == events - {r}
    ensures DatabaseIs(db[r := RecordIn(r, runs', steps', pending', events')], runs', steps', pending', events')
  {
    MinusAgrees(runs', runs, r);
    MinusAgrees(steps', steps, r);
    MinusAgrees(pending', pending, r);
    MinusAgrees(events', events, r);
  }

  lemma RecordOfIs(service: Service, r: string)
    requires r in service.repository.runs
    ensures service.RecordOf(r)
         == RecordIn(r, service.repository.runs, service.repository.steps,
                    service.repository.pending, service.audit.events)
  {}

  /** A call that leaves all runs but one alone leaves the records of a state in which that one has its new record. */
  lemma OneRecordChanged(
    service: Service, db: map<string, Record>, r: string, runs: map<string, Run>, steps: map<string, seq<Step>>,
    pending: map<string, Pending>, events: map<string, seq<Event>>)
    requires DatabaseIs(db, runs, steps, pending, events) && r in service.repository.runs
    requires service.OthersAre(r, (runs - {r}, steps - {r}, pending - {r}), events - {r})
    ensures RecordsAre(service, db[r := service.RecordOf(r)])
  {
    hide DatabaseIs, RecordIn;
    RecordOfIs(service, r);
    DatabaseAfter(db, r, runs, steps, pending, events, service.repository.runs, service.repository.steps,
                  service.repository.pending, service.audit.events);
  }

  lemma KnownRecord(service: Service, db: map<string, Record>, r: string)
    requires RecordsAre(service, db)
    ensures r in db <==> r in service.repository.runs
    ensures r in db ==> db[r] == service.RecordOf(r)
  {}

  // A call by itself, from its first step to its last

  /** The state in which one agent has entered a call, and the one its last step leaves. */
  lemma WholeCall(
    s: System, act: Action, timer: nat, body: Body, rec: Record, dest: Dest, httpToolOK: Fields -> bool)
    requires Reachable(s, httpToolOK) && s.agents == map[] && Enabled(s, act)
    requires var s1 := Apply(s, act, httpToolOK);
             && 0 in s1.agents && s1.agents == map[0 := s1.agents[0]]
             && RunOf(s1.agents[0]) in s1.db
             && Ends(s1.workflows, body, s1.db[RunOf(s1.agents[0])], s1.agents[0], rec, dest)
             && (dest.ToChannel? ==> |s1.channel| < s1.capacity)
             && (dest.ToTimer? ==> timer !in s1.timers)
    ensures var s1 := Apply(s, act, httpToolOK);
            var r := RunOf(s1.agents[0]);
            && Reachable(Commit(s1, 0, timer, r, Effect(rec, dest)), httpToolOK)
            && (dest.Leave? ==> Commit(s1, 0, timer, r, Effect(rec, dest))
                                == s1.(db := s1.db[r := rec], agents := map[]))
            && (dest.ToChannel? ==>
                  Commit(s1, 0, timer, r, Effect(rec, dest))
                  == s1.(db := s1.db[r := rec], agents := map[], channel := s1.channel + [dest.job]))
            && (dest.ToTimer? ==>
                  Commit(s1, 0, timer, r, Effect(rec, dest))
                  == s1.(db := s1.db[r := rec], agents := map[],
                          timers := s1.timers[timer := Timer(dest.job, dest.delay)]))
  {
    hide Reachable, Apply, Ends, Enabled;
    var s1 := Apply(s, act, httpToolOK);
    AloneIsSerial(s, act);
    ReachableNext(s, act, httpToolOK);
    CallEndIsReachable(s1, 0, timer, body, rec, dest, httpToolOK);
    assert s1.agents - {0} == map[];
  }

  lemma AloneIsSerial(s: System, act: Action)
    requires s.agents == map[]
    ensures Serial(s, act)
  {}

  lemma StartReachable(capacity: nat, httpToolOK: Fields -> bool)
    ensures Reachable(Initial(capacity), httpToolOK)
  {
    assert Protocol.After(capacity, [], httpToolOK) == Some(Initial(capacity));
  }

  /** A new service represents the initial state. */
  method Begin(size: int, body: Body, ghost httpToolOK: Fields -> bool) returns (service: Service, ghost s: System)
    ensures fresh(service) && InOrder(service, s, httpToolOK) && s.workflows == map[] && s.db == map[]
  {
    var repository := new MemoryRepository();
    var audit := new AuditRepository();
    var queue := new MemoryQueue(size);
    service := new Service(repository, audit, queue, body);
    s := Initial(queue.capacity);
    StartReachable(queue.capacity, httpToolOK);
  }

  lemma DequeuedClaims(s: System, httpToolOK: Fields -> bool)
    requires Reachable(s, httpToolOK) && s.agents == map[] && s.channel != []
    ensures var (s1, job) := (Apply(s, Dequeue(0), httpToolOK), s.channel[0]);
            && s1 == s.(channel := s.channel[1..], agents := map[0 := Holding(job)])
            && job.runID in s.db && CheckJob(s.workflows, s.db[job.runID], job) != Leave
  {
    hide Reachable, CheckJob;
    AloneIsSerial(s, Dequeue(0));
    ReachableNext(s, Dequeue(0), httpToolOK);
    var s1, job := Apply(s, Dequeue(0), httpToolOK), s.channel[0];
    assert s1.agents == map[0 := Holding(job)];
    AlwaysResolvable(s1, 0, httpToolOK);
  }

  lemma NewTimer(service: Service, before: map<nat, Timer>, after: map<nat, Timer>, dest: Dest) returns (timer: nat)
    requires service.Scheduled(before, after, dest)
    ensures dest.ToTimer? ==> timer !in before && after == before[timer := Timer(dest.job, dest.delay)]
    ensures !dest.ToTimer? ==> after == before
  {
    timer := 0;
    if dest.ToTimer? {
      timer :| timer in after && timer !in before && after == before[timer := Timer(dest.job, dest.delay)];
    }
  }

  lemma DequeuedIsKnown(service: Service, s: System, httpToolOK: Fields -> bool)
    requires InOrder(service, s, httpToolOK) && service.queue.jobs != []
    ensures var job := service.queue.jobs[0];
            && job.runID in s.db && job.runID in service.repository.runs
            && s.db[job.runID] == service.RecordOf(job.runID)
            && CheckJob(service.workflows, service.RecordOf(job.runID), job) != Leave
            && Apply(s, Dequeue(0), httpToolOK)
               == s.(channel := service.queue.jobs[1..], agents := map[0 := Holding(job)])
  {
    hide Reachable, CheckJob, Apply, DatabaseIs;
    DequeuedClaims(s, httpToolOK);
    KnownRecord(service, s.db, service.queue.jobs[0].runID);
  }

  /** A worker's turn. */
  method WorkerTurn(service: Service, ghost s: System, ghost httpToolOK: Fields -> bool)
    returns (processed: bool, ghost s': System)
    requires InOrder(service, s, httpToolOK)
    modifies service.repository, service.audit, service.queue
    ensures InOrder(service, s', httpToolOK)
    ensures processed <==> old(service.queue.jobs) != []
  {
    hide Reachable, Ends, CheckJob, Apply, Reached, Commit, DatabaseIs, Called, Settled;
    s' := s;
    ghost var runs, steps, pending, events :=
      service.repository.runs, service.repository.steps, service.repository.pending, service.audit.events;
    if |service.queue.jobs| > 0 {
      DequeuedIsKnown(service, s, httpToolOK);
    }
    ghost var timers := service.queue.timers;
    ghost var dest;
    processed, dest := service.ProcessNext();
    if processed {
      ghost var r := s.channel[0].runID;
      OneRecordChanged(service, s.db, r, runs, steps, pending, events);
      ghost var timer := NewTimer(service, timers, service.queue.timers, dest);
      WholeCall(s, Dequeue(0), timer, service.body, service.RecordOf(r), dest, httpToolOK);
      s' := Commit(Apply(s, Dequeue(0), httpToolOK), 0, timer, r, Effect(service.RecordOf(r), dest));
    }
  }

  lemma AsyncEnters(
    s: System, runID: string, tenantID: string, workflowID: string, input: Fields, httpToolOK: Fields -> bool)
    requires s.agents == map[] && runID !in s.db && TrimSpace(tenantID) != ""
    requires workflowID in s.workflows && s.workflows[workflowID].tenantID == tenantID
    ensures var act := StartAsync(0, runID, tenantID, workflowID, input);
            && Enabled(s, act)
            && Apply(s, act, httpToolOK)
               == s.(db := s.db[runID := CreateRun(NewRun(runID, tenantID, workflowID, RunQueued, Async, MAX_ATTEMPTS,
                                                          input))],
                     agents := map[0 := Created(Job(runID, tenantID, workflowID, 0, MAX_ATTEMPTS, input))])
  {
    hide TrimSpace;
    assert s.agents[0 := Created(Job(runID, tenantID, workflowID, 0, MAX_ATTEMPTS, input))]
        == map[0 := Created(Job(runID, tenantID, workflowID, 0, MAX_ATTEMPTS, input))];
  }

  /** A client's asynchronous start, with room in the channel. */
  method AsyncStart(
    service: Service, ghost s: System, runID: string, tenantID: string, workflowID: string, input: Fields,
    ghost httpToolOK: Fields -> bool)
    returns (r: Result<Run, string>, ghost s': System)
    requires InOrder(service, s, httpToolOK) && service.Unused(runID)
    requires |service.queue.jobs| < service.queue.capacity
    modifies service.repository, service.audit, service.queue
    ensures InOrder(service, s', httpToolOK)
  {
    hide Reachable, Ends, Apply, Reached, Commit, TrimSpace, Enabled, DatabaseIs, NewRun, CreateRun;
    s' := s;
    ghost var runs, steps, pending, events :=
      service.repository.runs, service.repository.steps, service.repository.pending, service.audit.events;
    KnownRecord(service, s.db, runID);
    r := service.ExecuteAsync(runID, tenantID, workflowID, input);
    if r.Ok? {
      ghost var act := StartAsync(0, runID, tenantID, workflowID, input);
      AsyncEnters(s, runID, tenantID, workflowID, input, httpToolOK);
      ghost var rec, dest := service.RecordOf(runID),
          ToChannel(Job(runID, tenantID, workflowID, 0, MAX_ATTEMPTS, input));
      OneRecordChanged(service, s.db, runID, runs, steps, pending, events);
      WholeCall(s, act, 0, service.body, rec, dest, httpToolOK);
      s' := Commit(Apply(s, act, httpToolOK), 0, 0, runID, Effect(rec, dest));
      assert Apply(s, act, httpToolOK).db[runID := rec] == s.db[runID := rec];
    }
  }

  lemma SyncEnters(
    s: System, runID: string, tenantID: string, workflowID: string, input: Fields, httpToolOK: Fields -> bool)
    requires s.agents == map[] && runID !in s.db && TrimSpace(tenantID) != ""
    requires Resolve(s.workflows, tenantID, workflowID).Ok?
    ensures var act := StartSync(0, runID, tenantID, workflowID, input);
            var run := NewRun(runID, tenantID, workflowID, RunRunning, Sync, 0, input);
            var g := Resolve(s.workflows, tenantID, workflowID).value;
            && Enabled(s, act)
            && Apply(s, act, httpToolOK)
               == s.(db := s.db[runID := CreateRun(run)],
                     agents := map[0 := Starting(BySync, run, g, NewState(g.roots))])
  {
    var run := NewRun(runID, tenantID, workflowID, RunRunning, Sync, 0, input);
    hide TrimSpace, GraphOf, Roots;
    var g := Resolve(s.workflows, tenantID, workflowID).value;
    assert s.agents[0 := Starting(BySync, run, g, NewState(g.roots))]
        == map[0 := Starting(BySync, run, g, NewState(g.roots))];
  }

  lemma ReachableResolves(s: System, tenantID: string, workflowID: string, httpToolOK: Fields -> bool)
    requires Reachable(s, httpToolOK) && workflowID in s.workflows && s.workflows[workflowID].tenantID == tenantID
    ensures Resolve(s.workflows, tenantID, workflowID).Ok?
  {
    hide Located, Fitting, Resolve;
    var owner := ReachableSafe(s, httpToolOK);
    StoredResolves(s, owner, tenantID, workflowID, httpToolOK);
  }

  /** A client's synchronous run. */
  method SyncRun(service: Service, ghost s: System, runID: string, tenantID: string, workflowID: string, input: Fields,
                 ghost httpToolOK: Fields -> bool)
    returns (r: Result<Run, string>, ghost s': System)
    requires InOrder(service, s, httpToolOK) && service.Unused(runID)
    modifies service.repository, service.audit
    ensures InOrder(service, s', httpToolOK)
  {
    hide Reachable, Ends, Apply, Reached, Commit, TrimSpace, Enabled, DatabaseIs, CreateRun, Resolve, Shows, Continue,
         Found, Recorded, RanFrom, NewRun;
    s' := s;
    ghost var runs, steps, pending, events :=
      service.repository.runs, service.repository.steps, service.repository.pending, service.audit.events;
    KnownRecord(service, s.db, runID);
    if workflowID in service.workflows && service.workflows[workflowID].tenantID == tenantID {
      ReachableResolves(s, tenantID, workflowID, httpToolOK);
    }
    r := service.ExecuteSync(runID, tenantID, workflowID, input);
    if r.Ok? {
      ghost var act := StartSync(0, runID, tenantID, workflowID, input);
      SyncEnters(s, runID, tenantID, workflowID, input, httpToolOK);
      ghost var rec := service.RecordOf(runID);
      OneRecordChanged(service, s.db, runID, runs, steps, pending, events);
      WholeCall(s, act, 0, service.body, rec, Leave, httpToolOK);
      s' := Commit(Apply(s, act, httpToolOK), 0, 0, runID, Effect(rec, Leave));
      assert Apply(s, act, httpToolOK).db[runID := rec] == s.db[runID := rec];
    }
  }

  lemma ResumeLoads(
    s: System, tenantID: string, runID: string, approved: bool, comment: string, input: Fields,
    httpToolOK: Fields -> bool)
    requires s.agents == map[] && TrimSpace(tenantID) != "" && runID in s.db && s.db[runID].run.tenantID == tenantID
    requires s.db[runID].pending.Some? && Resolve(s.workflows, tenantID, s.db[runID].run.workflowID).Ok?
    ensures var act := StartResume(0, tenantID, runID, approved, comment, input);
            var rec := s.db[runID];
            && Enabled(s, act)
            && Apply(s, act, httpToolOK)
               == s.(agents := map[0 := Loaded(rec.run.(input := MergeInput(rec.run.input, input)), rec.steps,
                                               rec.pending.value, approved, comment,
                                               Resolve(s.workflows, tenantID, rec.run.workflowID).value)])
  {
    hide TrimSpace, Resolve, MergeInput;
    var rec := s.db[runID];
    var pc := Loaded(rec.run.(input := MergeInput(rec.run.input, input)), rec.steps,
                     rec.pending.value, approved, comment,
                     Resolve(s.workflows, tenantID, rec.run.workflowID).value);
    assert s.agents[0 := pc] == map[0 := pc];
  }

  /** A client's decision. */
  method ApprovalDecided(
    service: Service, ghost s: System, tenantID: string, runID: string, approved: bool, comment: string,
    input: Fields, ghost httpToolOK: Fields -> bool)
    returns (r: Result<Run, string>, ghost s': System)
    requires InOrder(service, s, httpToolOK)
    modifies service.repository, service.audit
    ensures InOrder(service, s', httpToolOK)
  {
    hide Reachable, Ends, Apply, Reached, Commit, TrimSpace, Enabled, DatabaseIs, Resolve, Resumes, MergeInput,
         Found, Overlays, Refuses, GoesOn;
    s' := s;
    ghost var runs, steps, pending, events :=
      service.repository.runs, service.repository.steps, service.repository.pending, service.audit.events;
    KnownRecord(service, s.db, runID);
    ghost var resumable := TrimSpace(tenantID) != "" && runID in s.db && s.db[runID].run.tenantID == tenantID
                           && s.db[runID].pending.Some?
                           && Resolve(s.workflows, tenantID, s.db[runID].run.workflowID).Ok?;
    r := service.ResumeApproval(tenantID, runID, approved, comment, input);
    if resumable {
      ghost var act := StartResume(0, tenantID, runID, approved, comment, input);
      ResumeLoads(s, tenantID, runID, approved, comment, input, httpToolOK);
      ghost var rec := service.RecordOf(runID);
      OneRecordChanged(service, s.db, runID, runs, steps, pending, events);
      WholeCall(s, act, 0, service.body, rec, Leave, httpToolOK);
      s' := Commit(Apply(s, act, httpToolOK), 0, 0, runID, Effect(rec, Leave));
      assert Apply(s, act, httpToolOK).db[runID := rec] == s.db[runID := rec];
    }
  }

  /** A timer running out. */
  method TimerFires(
    service: Service, ghost s: System, timer: nat, ghost httpToolOK: Fields -> bool)
    returns (ghost s': System)
    requires InOrder(service, s, httpToolOK) && timer in service.queue.timers
    requires |service.queue.jobs| < service.queue.capacity
    modifies service.queue
    ensures InOrder(service, s', httpToolOK)
  {
    hide Reachable;
    AloneIsSerial(s, Fire(timer));
    ReachableNext(s, Fire(timer), httpToolOK);
    s' := Apply(s, Fire(timer), httpToolOK);
    service.queue.Fire(timer);
    hide RecordsAre;
  }

  /** A new definition. */
  method NewWorkflow(
    service: Service, ghost s: System, workflowID: string, tenantID: string, d: Definition, httpToolOK: Fields -> bool)
    returns (r: Result<StoredWorkflow, seq<ValidationError>>, ghost s': System)
    requires InOrder(service, s, httpToolOK) && workflowID !in service.workflows
    modifies service`workflows
    ensures InOrder(service, s', httpToolOK)
  {
    hide Reachable, Accepted, TrimSpace;
    s' := s;
    r := service.CreateWorkflow(workflowID, tenantID, d, httpToolOK);
    if r.Ok? {
      AloneIsSerial(s, CreateWorkflow(workflowID, tenantID, d));
      ReachableNext(s, CreateWorkflow(workflowID, tenantID, d), httpToolOK);
      s' := Apply(s, CreateWorkflow(workflowID, tenantID, d), httpToolOK);
    }
  }
}
