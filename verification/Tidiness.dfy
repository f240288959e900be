/** Whatever its nodes return, the loop's books of a run stay in order through pauses, retries and interleavings. */
module Tidiness {
  import opened Text
  import opened Values
  import opened Workflow
  import opened Graphs
  import opened Engine
  import opened Once
  import opened Resume
  import opened Outputs
  import opened Resumed
  import opened Backoff
  import opened Runs
  import opened Protocol
  import opened Tokens
  import opened Safety
  import opened Solo
  import opened Interleaving

  predicate GraphIs(workflows: Workflows, run: Run, g: Graph) {
    Resolve(workflows, run.tenantID, run.workflowID) == Ok(g)
  }

  lemma SameGraph(workflows: Workflows, run: Run, other: Run, g: Graph)
    requires GraphIs(workflows, run, g) && run.tenantID == other.tenantID && run.workflowID == other.workflowID
    ensures GraphIs(workflows, other, g)
  {}

  lemma ResolvedIsGraphOf(workflows: Workflows, run: Run, g: Graph)
    requires GraphIs(workflows, run, g)
    ensures run.workflowID in workflows && g == GraphOf(workflows[run.workflowID].definition)
  {
    hide GraphOf, Roots;
  }

  /** What validation promises of a graph. */
  ghost predicate Promised(g: Graph) {
    g.Valid() && NoSelfApproval(g) && "" !in g.nodes && Tidy(NewState(g.roots), Elements(g.roots))
  }

  lemma ResolvedPromised(workflows: Workflows, run: Run, g: Graph, httpToolOK: Fields -> bool)
    requires AllAccepted(workflows, httpToolOK) && GraphIs(workflows, run, g)
    ensures Promised(g)
  {
    hide Accepted, GraphIs, GraphOf, Tidy, NoSelfApproval, Resolve;
    ResolvedIsGraphOf(workflows, run, g);
    GraphIsValid(workflows, run, g);
    var d := workflows[run.workflowID].definition;
    AcceptedStartsTidy(d, httpToolOK);
    AcceptedNoSelfApproval(d, httpToolOK);
    BlankUnknown(d, httpToolOK);
  }

  lemma GraphIsValid(workflows: Workflows, run: Run, g: Graph)
    requires GraphIs(workflows, run, g)
    ensures g.Valid()
  {
    ResolvedValid(workflows, run.tenantID, run.workflowID);
    hide Resolve;
  }

  // Steps and pending records

  ghost predicate Neat(st: State, queued: set<string>) {
    Tidy(st, queued) && "" !in st.executed
  }

  ghost predicate ParkedFrom(g: Graph, steps: seq<Step>, pending: Pending, st: State, queued: set<string>) {
    && Neat(st, queued) && st.queue != [] && g.Node(st.queue[0]).typ == "approval"
    && steps == Wait(g, st).steps && pending == Freeze(g, st)
  }

  /** The pending record is a state in order, frozen at an approval that has not run. */
  ghost predicate ParkedInOrder(g: Graph, steps: seq<Step>, pending: Pending) {
    exists st, queued :: ParkedFrom(g, steps, pending, st, queued)
  }

  /** The steps name no node twice, and the pending record, if there is one, is in order. */
  ghost predicate BooksFit(workflows: Workflows, run: Run, steps: seq<Step>, pending: Option<Pending>) {
    && Distinct(NodeIDs(steps))
    && (pending.Some? ==> exists g :: GraphIs(workflows, run, g) && ParkedInOrder(g, steps, pending.value))
  }

  function PendingOf(o: Outcome): Option<Pending> {
    if o.Paused? then Some(o.pending) else None
  }

  ghost predicate TidyAt(workflows: Workflows, rec: Record, w: Where) {
    if !w.Busy? then BooksFit(workflows, rec.run, rec.steps, rec.pending)
    else
      match w.pc
      case Checked(_, run, g) => GraphIs(workflows, run, g)
      case Starting(_, run, g, st) => GraphIs(workflows, run, g) && Neat(st, Elements(st.queue))
      case Walking(_, run, g, st, queued) => GraphIs(workflows, run, g) && Neat(st, queued)
      case Stopped(_, run, o) => BooksFit(workflows, run, o.st.steps, PendingOf(o))
      case Rejecting(_, steps) => Distinct(NodeIDs(steps))
      case Loaded(run, steps, pending, _, _, g) =>
        && GraphIs(workflows, run, g) && ParkedInOrder(g, steps, pending)
        && BooksFit(workflows, rec.run, rec.steps, rec.pending)
      case _ => BooksFit(workflows, rec.run, rec.steps, rec.pending)
  }

  lemma InOrderForSame(workflows: Workflows, run: Run, other: Run, steps: seq<Step>, pending: Option<Pending>)
    requires BooksFit(workflows, run, steps, pending)
    requires run.tenantID == other.tenantID && run.workflowID == other.workflowID
    ensures BooksFit(workflows, other, steps, pending)
  {
    hide ParkedInOrder, Resolve;
    if pending.Some? {
      var g :| GraphIs(workflows, run, g) && ParkedInOrder(g, steps, pending.value);
      SameGraph(workflows, run, other, g);
    }
  }

  // A turn of the loop

  lemma HeadKnownOrZero(g: Graph, st: State)
    requires g.Valid() && st.queue != []
    ensures if st.queue[0] in g.nodes then g.Node(st.queue[0]).id == st.queue[0]
            else g.Node(st.queue[0]).id == "" && !Executable(g.Node(st.queue[0]).typ)
                 && g.Node(st.queue[0]).typ != "approval"
  {}

  function ReturnOf(g: Graph, st: State, result: Result<Value, string>): Result<Value, string>
    requires st.queue != []
  {
    if Executable(g.Node(st.queue[0]).typ) then result else Err("node type is not supported by sync execution yet")
  }

  lemma GoStaysNeat(g: Graph, st: State, queued: set<string>, result: Result<Value, string>)
    requires g.Valid() && "" !in g.nodes && Neat(st, queued) && st.queue != []
    requires TakeTurn(g, st, queued, ReturnOf(g, st, result), []).Go?
    ensures var turn := TakeTurn(g, st, queued, ReturnOf(g, st, result), []);
            && Neat(turn.st, turn.queued) && turn.st.executed == st.executed + {st.queue[0]}
    ensures st.queue[0] in g.nodes && st.queue[0] !in st.executed
  {
    HeadKnownOrZero(g, st);
    hide Tidy, Fresh, Next;
    CompleteTidy(g, st, queued, ReturnOf(g, st, result).value);
  }

  lemma StopInOrder(g: Graph, st: State, queued: set<string>, result: Result<Value, string>)
    requires g.Valid() && "" !in g.nodes && Neat(st, queued) && st.queue != []
    requires TakeTurn(g, st, queued, ReturnOf(g, st, result), []).Stop?
    ensures var o := TakeTurn(g, st, queued, ReturnOf(g, st, result), []).outcome;
            && !o.Finished? && Distinct(NodeIDs(o.st.steps))
            && (o.Paused? ==> ParkedFrom(g, o.st.steps, o.pending, st, queued))
  {
    HeadKnownOrZero(g, st);
    var node := g.Node(st.queue[0]);
    hide Freeze, ApprovalRequest, Complete;
    if node.typ == "approval" {
      OneMoreStep(st, WaitingStep(node));
    } else {
      LastStepIsNew(st, FailedStep(node, ReturnOf(g, st, result).error));
    }
  }

  lemma StopParks(g: Graph, st: State, queued: set<string>, result: Result<Value, string>)
    requires st.queue != [] && TakeTurn(g, st, queued, result, []).Stop?
    ensures var o := TakeTurn(g, st, queued, result, []).outcome;
            o.Paused? ==> o.pending.executed == st.executed && o.pending.waitingNodeID == g.Node(st.queue[0]).id
  {
    hide ApprovalRequest, Fresh, Next;
  }

  lemma LastStepIsNew(st: State, last: Step)
    requires st.queue != [] && Distinct(Trail(st)) && Elements(NodeIDs(st.steps)) == st.executed && "" !in st.executed
    requires last.nodeID == st.queue[0] || last.nodeID == ""
    ensures Distinct(NodeIDs(st.steps + [last]))
  {
    OneMoreStep(st, last);
    if last.nodeID == "" {
      assert last.nodeID !in NodeIDs(st.steps);
      NodeIDsSnoc(st.steps, last);
      DistinctAppend(NodeIDs(st.steps), [last.nodeID]);
    }
  }

  /** A resumed run goes on in order, with the approval executed. */
  lemma ThawInOrder(g: Graph, steps: seq<Step>, pending: Pending, decision: Value)
    requires g.Valid() && NoSelfApproval(g) && "" !in g.nodes && ParkedInOrder(g, steps, pending)
    ensures steps != [] && pending.waitingNodeID in g.nodes && pending.waitingNodeID !in pending.executed
    ensures var st := Thaw(steps, pending, decision);
            Neat(st, Elements(st.queue)) && st.executed == pending.executed + {pending.waitingNodeID}
  {
    var st, queued :| ParkedFrom(g, steps, pending, st, queued);
    HeadKnownOrZero(g, st);
    assert st.queue[0] in g.nodes;
    PauseIsATurn(g, st, queued, decision);
    CompleteTidy(g, st, queued, decision);
    FreezeKeeps(g, st);
    hide Tidy, Freeze, Complete, NoSelfApproval, ApprovalRequest;
  }

  // Step by step

  lemma WalkGoes(rec: Record, pc: Pc, result: Result<Value, string>)
    requires pc.Walking? && pc.st.queue != []
    ensures var turn := TakeTurn(pc.g, pc.st, pc.queued, ReturnOf(pc.g, pc.st, result), []);
            WalkStep(rec, pc, result).dest
            == Stay(if turn.Stop? then Stopped(pc.mode, pc.run, turn.outcome)
                    else Walking(pc.mode, pc.run, pc.g, turn.st, turn.queued))
  {
    hide TakeTurn;
  }

  lemma WalkingIsWalkStep(workflows: Workflows, rec: Record, pc: Pc, result: Result<Value, string>)
    requires pc.Walking?
    ensures LocalStep(workflows, rec, pc, result)
            == if pc.st.queue == [] then Effect(rec, Stay(Stopped(pc.mode, pc.run, Finished(pc.st))))
               else WalkStep(rec, pc, result)
  {
    hide WalkStep;
  }

  lemma WalkingMeans(workflows: Workflows, rec: Record, pc: Pc)
    requires TidyAt(workflows, rec, Busy(pc)) && pc.Walking?
    ensures GraphIs(workflows, pc.run, pc.g) && Neat(pc.st, pc.queued)
  {
    hide GraphIs, Neat;
  }

  lemma GoneTidy(workflows: Workflows, rec: Record, pc: Pc, st: State, queued: set<string>)
    requires pc.Walking? && GraphIs(workflows, pc.run, pc.g) && Neat(st, queued)
    ensures TidyAt(workflows, rec, Busy(Walking(pc.mode, pc.run, pc.g, st, queued)))
  {
    hide GraphIs, Neat;
  }

  lemma EndedTidy(workflows: Workflows, rec: Record, pc: Pc, o: Outcome)
    requires pc.Walking? && GraphIs(workflows, pc.run, pc.g) && Distinct(NodeIDs(o.st.steps))
    requires o.Paused? ==> ParkedInOrder(pc.g, o.st.steps, o.pending)
    ensures TidyAt(workflows, rec, Busy(Stopped(pc.mode, pc.run, o)))
  {
    hide GraphIs, ParkedInOrder;
  }

  lemma WalkingTidy(
    workflows: Workflows, rec: Record, pc: Pc, result: Result<Value, string>, httpToolOK: Fields -> bool)
    requires AllAccepted(workflows, httpToolOK) && TidyAt(workflows, rec, Busy(pc)) && pc.Walking?
    ensures var e := LocalStep(workflows, rec, pc, result);
            TidyAt(workflows, e.rec, WhereTo(e.dest))
  {
    hide *;
    var e := LocalStep(workflows, rec, pc, result);
    WalkingMeans(workflows, rec, pc);
    ResolvedPromised(workflows, pc.run, pc.g, httpToolOK);
    PromisedMeans(pc.g);
    WalkingIsWalkStep(workflows, rec, pc, result);
    if pc.st.queue == [] {
      NothingQueued(pc.st, pc.queued);
      EndedTidy(workflows, e.rec, pc, Finished(pc.st));
    } else {
      WalkGoes(rec, pc, result);
      TurnTidyOn(workflows, e.rec, pc, result);
    }
    StayIsBusy(e.dest);
  }

  lemma TurnTidyOn(workflows: Workflows, rec: Record, pc: Pc, result: Result<Value, string>)
    requires pc.Walking? && pc.st.queue != [] && GraphIs(workflows, pc.run, pc.g) && Neat(pc.st, pc.queued)
    requires pc.g.Valid() && "" !in pc.g.nodes
    ensures var turn := TakeTurn(pc.g, pc.st, pc.queued, ReturnOf(pc.g, pc.st, result), []);
            TidyAt(workflows, rec, Busy(if turn.Stop? then Stopped(pc.mode, pc.run, turn.outcome)
                                        else Walking(pc.mode, pc.run, pc.g, turn.st, turn.queued)))
  {
    hide *;
    var turn := TakeTurn(pc.g, pc.st, pc.queued, ReturnOf(pc.g, pc.st, result), []);
    if turn.Go? {
      GoStaysNeat(pc.g, pc.st, pc.queued, result);
      GoneTidy(workflows, rec, pc, turn.st, turn.queued);
    } else {
      StopInOrder(pc.g, pc.st, pc.queued, result);
      if turn.outcome.Paused? {
        ParkedFromIsInOrder(pc.g, turn.outcome.st.steps, turn.outcome.pending, pc.st, pc.queued);
      }
      EndedTidy(workflows, rec, pc, turn.outcome);
    }
  }

  lemma PromisedMeans(g: Graph)
    requires Promised(g)
    ensures g.Valid() && NoSelfApproval(g) && "" !in g.nodes && Neat(NewState(g.roots), Elements(g.roots))
  {
    hide Tidy;
  }

  lemma ParkedFromIsInOrder(g: Graph, steps: seq<Step>, pending: Pending, st: State, queued: set<string>)
    requires ParkedFrom(g, steps, pending, st, queued)
    ensures ParkedInOrder(g, steps, pending)
  {
    hide ParkedFrom;
  }

  lemma NothingQueued(st: State, queued: set<string>)
    requires Neat(st, queued) && st.queue == []
    ensures Distinct(NodeIDs(st.steps))
  {
    assert Trail(st) == NodeIDs(st.steps);
  }

  lemma CheckedTidy(
    workflows: Workflows, rec: Record, pc: Pc, result: Result<Value, string>, httpToolOK: Fields -> bool)
    requires AllAccepted(workflows, httpToolOK) && TidyAt(workflows, rec, Busy(pc)) && pc.Checked?
    ensures var e := LocalStep(workflows, rec, pc, result);
            TidyAt(workflows, e.rec, WhereTo(e.dest))
  {
    hide AllAccepted, Promised, GraphIs, Neat;
    ResolvedPromised(workflows, pc.run, pc.g, httpToolOK);
    PromisedMeans(pc.g);
  }

  lemma HeldNames(workflows: Workflows, rec: Record, pc: Pc)
    requires RunFits(workflows, rec, With(0, pc)) && pc.Holding?
    ensures pc.job.tenantID == rec.run.tenantID && pc.job.workflowID == rec.run.workflowID
  {
    hide RecordFits, PhaseOf;
  }

  lemma HoldingTidy(workflows: Workflows, rec: Record, pc: Pc, result: Result<Value, string>)
    requires RunFits(workflows, rec, With(0, pc)) && TidyAt(workflows, rec, Busy(pc)) && pc.Holding?
    requires Resolves(workflows, pc)
    ensures var e := LocalStep(workflows, rec, pc, result);
            TidyAt(workflows, e.rec, WhereTo(e.dest))
  {
    HeldNames(workflows, rec, pc);
    hide BooksFit, RunFits, Resolve, TrimSpace, MergeInput;
  }

  lemma StoppedTidy(workflows: Workflows, rec: Record, pc: Pc, result: Result<Value, string>)
    requires TidyAt(workflows, rec, Busy(pc)) && pc.Stopped?
    ensures var e := LocalStep(workflows, rec, pc, result);
            TidyAt(workflows, e.rec, WhereTo(e.dest))
  {
    hide BooksFit, RunOutput;
    InOrderForSame(workflows, pc.run, LocalStep(workflows, rec, pc, result).rec.run, pc.outcome.st.steps,
                   PendingOf(pc.outcome));
  }

  lemma ResolvedIDs(steps: seq<Step>, decision: Value)
    requires steps != []
    ensures NodeIDs(ResolvedSteps(steps, decision)) == NodeIDs(steps)
  {}

  /** Resolving leaves the run, rejects it, or starts it again from the thawed state. */
  lemma ResolutionLeads(rec: Record, pc: Pc)
    requires pc.Loaded?
    ensures var (e, decision) := (ResolveApproval(rec, pc), Decision(pc.approved, pc.comment));
            || e == Effect(rec, Leave)
            || (&& pc.steps != [] && e.dest.Stay? && e.dest.pc.Rejecting?
                && e.dest.pc.steps == ResolvedSteps(pc.steps, decision))
            || (&& pc.steps != [] && e.dest.Stay? && e.dest.pc.Starting? && e.dest.pc.mode.ByResume?
                && e.dest.pc.g == pc.g
                && e.dest.pc.st == Thaw(pc.steps, pc.pending, decision)
                && e.dest.pc.run.tenantID == pc.run.tenantID && e.dest.pc.run.workflowID == pc.run.workflowID)
  {
    hide Decision, Thaw, ResolvedSteps;
  }

  lemma LoadedTidy(
    workflows: Workflows, rec: Record, pc: Pc, result: Result<Value, string>, httpToolOK: Fields -> bool)
    requires AllAccepted(workflows, httpToolOK) && TidyAt(workflows, rec, Busy(pc)) && pc.Loaded?
    ensures var e := LocalStep(workflows, rec, pc, result);
            TidyAt(workflows, e.rec, WhereTo(e.dest))
  {
    hide AllAccepted, Promised, GraphIs, Neat, ResolveApproval, Thaw, ResolvedSteps, Decision;
    var decision := Decision(pc.approved, pc.comment);
    ResolvedPromised(workflows, pc.run, pc.g, httpToolOK);
    PromisedMeans(pc.g);
    ResolutionLeads(rec, pc);
    ThawInOrder(pc.g, pc.steps, pc.pending, decision);
    ParkedDistinct(pc.g, pc.steps, pc.pending);
    ResolvedIDs(pc.steps, decision);
    var e := ResolveApproval(rec, pc);
    if e.dest.Stay? && e.dest.pc.Starting? {
      SameGraph(workflows, pc.run, e.dest.pc.run, pc.g);
    }
    hide ParkedInOrder;
  }

  lemma ParkedDistinct(g: Graph, steps: seq<Step>, pending: Pending)
    requires g.Valid() && ParkedInOrder(g, steps, pending)
    ensures Distinct(NodeIDs(steps))
  {
    var st, queued :| ParkedFrom(g, steps, pending, st, queued);
    HeadKnownOrZero(g, st);
    OneMoreStep(st, WaitingStep(g.Node(st.queue[0])));
    hide Freeze, ApprovalRequest;
  }

  lemma RejectingTidy(workflows: Workflows, rec: Record, pc: Pc, result: Result<Value, string>)
    requires TidyAt(workflows, rec, Busy(pc)) && (pc.Rejecting? || pc.Starting?)
    ensures var e := LocalStep(workflows, rec, pc, result);
            TidyAt(workflows, e.rec, WhereTo(e.dest))
  {
    hide GraphIs, Neat;
  }

  lemma ReturnedIsStored(workflows: Workflows, rec: Record, pc: Pc)
    requires RunFits(workflows, rec, With(0, pc)) && pc.Returned?
    ensures rec.run == pc.run && rec.run.attempt >= 1
  {
    hide PhaseOf, RecordFits;
  }

  /** Before and after the loop all there is to the run's books is what is stored. */
  predicate OnRecord(w: Where) {
    w.Busy? ==> w.pc.Created? || w.pc.Announced? || w.pc.Holding? || w.pc.Written? || w.pc.Returned? || w.pc.Requeued?
                || w.pc.Scheduling? || w.pc.DeadLettered?
  }

  lemma OnRecordMeans(workflows: Workflows, rec: Record, w: Where)
    requires OnRecord(w)
    ensures TidyAt(workflows, rec, w) <==> BooksFit(workflows, rec.run, rec.steps, rec.pending)
  {
    hide BooksFit;
  }

  lemma RecordingKeeps(workflows: Workflows, rec: Record, pc: Pc, result: Result<Value, string>)
    requires OnRecord(Busy(pc)) && !pc.Holding? && (pc.Returned? ==> rec.run == pc.run)
    ensures var e := LocalStep(workflows, rec, pc, result);
            && OnRecord(WhereTo(e.dest)) && e.rec.steps == rec.steps && e.rec.pending == rec.pending
            && e.rec.run.tenantID == rec.run.tenantID && e.rec.run.workflowID == rec.run.workflowID
            && e.rec.run.attempt == rec.run.attempt
  {
    hide RetryOutput, DeadLetterOutput, RetryDelay, EndEvent;
  }

  lemma RecordingTidy(workflows: Workflows, rec: Record, pc: Pc, result: Result<Value, string>)
    requires RunFits(workflows, rec, With(0, pc)) && TidyAt(workflows, rec, Busy(pc))
    requires OnRecord(Busy(pc)) && !pc.Holding?
    ensures var e := LocalStep(workflows, rec, pc, result);
            TidyAt(workflows, e.rec, WhereTo(e.dest))
  {
    hide *;
    if pc.Returned? {
      ReturnedIsStored(workflows, rec, pc);
    }
    var e := LocalStep(workflows, rec, pc, result);
    OnRecordMeans(workflows, rec, Busy(pc));
    RecordingKeeps(workflows, rec, pc, result);
    InOrderForSame(workflows, rec.run, e.rec.run, rec.steps, rec.pending);
    OnRecordMeans(workflows, e.rec, WhereTo(e.dest));
  }

  lemma ActTidy(
    workflows: Workflows, rec: Record, pc: Pc, result: Result<Value, string>, httpToolOK: Fields -> bool)
    requires AllAccepted(workflows, httpToolOK) && Resolves(workflows, pc)
    requires RunFits(workflows, rec, With(0, pc)) && TidyAt(workflows, rec, Busy(pc))
    ensures var e := LocalStep(workflows, rec, pc, result);
            TidyAt(workflows, e.rec, WhereTo(e.dest))
  {
    hide AllAccepted, TidyAt, LocalStep, RunFits, Resolves;
    NeverUnresolvable(workflows, rec, pc);
    match pc {
      case Holding(_) => HoldingTidy(workflows, rec, pc, result);
      case Checked(_, _, _) => CheckedTidy(workflows, rec, pc, result, httpToolOK);
      case Starting(_, _, _, _) => RejectingTidy(workflows, rec, pc, result);
      case Walking(_, _, _, _, _) => WalkingTidy(workflows, rec, pc, result, httpToolOK);
      case Stopped(_, _, _) => StoppedTidy(workflows, rec, pc, result);
      case Loaded(_, _, _, _, _, _) => LoadedTidy(workflows, rec, pc, result, httpToolOK);
      case Rejecting(_, _) => RejectingTidy(workflows, rec, pc, result);
      case _ => RecordingTidy(workflows, rec, pc, result);
    }
  }

  lemma BornTidy(workflows: Workflows, rec: Record, w: Where, httpToolOK: Fields -> bool)
    requires AllAccepted(workflows, httpToolOK) && Born(workflows, rec, w)
    ensures TidyAt(workflows, rec, w)
  {
    hide AllAccepted, Promised, Resolve, Neat, TrimSpace;
    assert NodeIDs([]) == [];
    if rec.run.trigger != Async {
      ResolvedPromised(workflows, rec.run, w.pc.g, httpToolOK);
      PromisedMeans(w.pc.g);
    }
  }

  lemma HandingTidy(rules: Rules, workflows: Workflows, rec: Record, w: Where, doing: Doing)
    requires TidyAt(workflows, rec, w) && !w.Busy? && DoOne(rules, workflows, rec, w, doing).Some?
    ensures var (rec', w') := DoOne(rules, workflows, rec, w, doing).value;
            TidyAt(workflows, rec', w')
  {
    hide ParkedInOrder, Resolve, MergeInput, InputAllowed;
  }

  lemma DoOneTidy(
    rules: Rules, workflows: Workflows, rec: Record, w: Where, doing: Doing, httpToolOK: Fields -> bool)
    requires AllAccepted(workflows, httpToolOK) && RunFits(workflows, rec, PlaceIn(w)) && TidyAt(workflows, rec, w)
    requires DoOne(rules, workflows, rec, w, doing).Some?
    ensures var (rec', w') := DoOne(rules, workflows, rec, w, doing).value;
            TidyAt(workflows, rec', w')
  {
    hide AllAccepted, TidyAt, RunFits, LocalStep, ResultAllowed, Resolves, LoadedFor;
    if w.Busy? {
      ActTidy(workflows, rec, w.pc, doing.result, httpToolOK);
    } else {
      HandingTidy(rules, workflows, rec, w, doing);
    }
  }

  lemma {:induction false} DoAllTidy(
    rules: Rules, workflows: Workflows, birth: Record, start: Where, doings: seq<Doing>, httpToolOK: Fields -> bool)
    requires AllAccepted(workflows, httpToolOK)
    requires Born(workflows, birth, start) && DoAll(rules, workflows, birth, start, doings).Some?
    ensures var (rec, w) := DoAll(rules, workflows, birth, start, doings).value;
            TidyAt(workflows, rec, w)
  {
    if doings == [] {
      BornTidy(workflows, birth, start, httpToolOK);
    } else {
      hide *;
      var k := |doings| - 1;
      DoAllSnoc(rules, workflows, birth, start, doings);
      DoAllFits(rules, workflows, birth, start, doings[..k]);
      DoAllTidy(rules, workflows, birth, start, doings[..k], httpToolOK);
      var (rec, w) := DoAll(rules, workflows, birth, start, doings[..k]).value;
      DoOneTidy(rules, workflows, rec, w, doings[k], httpToolOK);
    }
  }

  // The whole system

  lemma AcceptedAfter(rules: Rules, capacity: nat, history: seq<Action>, s: System, httpToolOK: Fields -> bool)
    requires AfterBy(rules, capacity, history, httpToolOK) == Some(s)
    ensures AllAccepted(s.workflows, httpToolOK)
  {
    hide Accepted, Located, RunFits, AfterBy;
    AfterByIsAfter(rules, capacity, history, httpToolOK);
    var owner := HistorySafe(capacity, history, httpToolOK);
  }

  lemma TidyAtRest(workflows: Workflows, rec: Record, w: Where)
    requires TidyAt(workflows, rec, w) && !w.Busy?
    ensures Distinct(NodeIDs(rec.steps))
  {
    hide ParkedInOrder, GraphIs;
  }

  lemma NotBusy(s: System, r: string, w: Where)
    requires IsWhere(s, r, w) && forall a :: a in s.agents ==> RunOf(s.agents[a]) != r
    ensures !w.Busy?
  {}

  /**
   * Under every interleaving the stored steps of a run that no call is working on name each node once, whatever
   * its nodes have returned at each of their calls, and however often it was paused, resumed and retried.
   */
  lemma StoredStepsOnce(
    rules: Rules, capacity: nat, history: seq<Action>, s: System, r: string, httpToolOK: Fields -> bool)
    requires AfterBy(rules, capacity, history, httpToolOK) == Some(s) && r in s.db
    requires forall a :: a in s.agents ==> RunOf(s.agents[a]) != r
    ensures Distinct(NodeIDs(s.db[r].steps))
  {
    hide AfterBy, StoryOf, Born, DoAll, TidyAt, AllAccepted, IsWhere;
    AcceptedAfter(rules, capacity, history, s, httpToolOK);
    var w := EveryRunIsOwnDoing(rules, capacity, history, s, r, httpToolOK);
    var story := StoryOf(rules, capacity, history, r, httpToolOK).value;
    NotBusy(s, r, w);
    DoAllTidy(rules, s.workflows, story.birth, story.start, story.doings, httpToolOK);
    TidyAtRest(s.workflows, s.db[r], w);
  }
}
