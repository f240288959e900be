/**
 * The error a run is stored with, and what clears it (`internal/executor/async.go`, `internal/executor/service.go`).
 */
module RunErrors {
  import opened Text
  import opened Values
  import opened Graphs
  import opened Engine
  import opened Backoff
  import opened Runs
  import opened Protocol
  import opened Tokens
  import opened Solo
  import opened Interleaving

  /** An attempt has failed, and no approval was resolved since. */
  predicate Blemished(log: seq<Event>) {
    if log == [] then false
    else
      match log[|log| - 1]
      case RunFailedEvent => true
      case ApprovalResolvedEvent(_) => false
      case _ => Blemished(log[..|log| - 1])
  }

  lemma BlemishedSnoc(log: seq<Event>, e: Event)
    ensures Blemished(log + [e])
            == if e.RunFailedEvent? then true else if e.ApprovalResolvedEvent? then false else Blemished(log)
  {
    assert (log + [e])[..|log|] == log;
  }

  predicate Explains(run: Run, log: seq<Event>) {
    run.error != "" <==> Blemished(log)
  }

  /** The run in the call's hands, or the stored one, carries an error exactly when its log is blemished. */
  predicate ErrorAt(rec: Record, w: Where) {
    if !w.Busy? then Explains(rec.run, rec.log)
    else
      match w.pc
      case Checked(_, run, _) => Explains(run, rec.log)
      case Starting(_, run, _, _) => Explains(run, rec.log)
      case Walking(_, run, _, _, _) => Explains(run, rec.log)
      case Stopped(_, run, o) => Explains(run, rec.log) && (o.Broken? ==> o.error != "")
      case Rejecting(run, _) => run.error != ""
      case Written(_, run) => if run.status == RunFailed then run.error != "" else Explains(run, rec.log)
      case Loaded(run, _, _, _, _, _) => run.error == rec.run.error && Explains(rec.run, rec.log)
      case Returned(_, run) => Explains(run, rec.log) && Explains(rec.run, rec.log)
      case _ => Explains(rec.run, rec.log)
  }

  lemma LoudTurn(g: Graph, st: State, queued: set<string>, result: Result<Value, string>)
    requires st.queue != [] && (result.Err? ==> result.error != "")
    ensures var turn := Engine.TakeTurn(g, st, queued, result, []);
            turn.Stop? && turn.outcome.Broken? ==> turn.outcome.error != ""
  {
    hide Complete, Freeze, ApprovalRequest;
  }

  lemma WalkingKeepsRun(rec: Record, pc: Pc, result: Result<Value, string>)
    requires pc.Walking? && pc.st.queue != [] && (result.Err? ==> result.error != "")
    ensures var e := WalkStep(rec, pc, result);
            && e.rec.run == rec.run && |e.rec.log| == |rec.log| + 1 && e.rec.log[..|rec.log|] == rec.log
            && (var event := e.rec.log[|rec.log|]; !event.RunFailedEvent? && !event.ApprovalResolvedEvent?)
            && e.dest.Stay? && (e.dest.pc.Walking? || e.dest.pc.Stopped?) && e.dest.pc.run == pc.run
            && (e.dest.pc.Stopped? && e.dest.pc.outcome.Broken? ==> e.dest.pc.outcome.error != "")
  {
    var node := pc.g.Node(pc.st.queue[0]);
    var returned := if Executable(node.typ) then result else Err("node type is not supported by sync execution yet");
    hide Engine.TakeTurn;
    LoudTurn(pc.g, pc.st, pc.queued, returned);
  }

  lemma WalkingError(rules: Rules, workflows: Workflows, rec: Record, pc: Pc, result: Result<Value, string>)
    requires rules.loud && ResultAllowed(rules, pc, result) && ErrorAt(rec, Busy(pc)) && pc.Walking?
    ensures var e := LocalStep(workflows, rec, pc, result);
            ErrorAt(e.rec, WhereTo(e.dest))
  {
    hide Blemished, WalkStep;
    if pc.st.queue != [] {
      WalkingKeepsRun(rec, pc, result);
      var e := WalkStep(rec, pc, result);
      BlemishedSnoc(rec.log, e.rec.log[|rec.log|]);
      assert e.rec.log == rec.log + [e.rec.log[|rec.log|]];
    }
  }

  lemma StoppedError(workflows: Workflows, rec: Record, pc: Pc, result: Result<Value, string>)
    requires ErrorAt(rec, Busy(pc)) && (pc.Stopped? || pc.Rejecting? || pc.Checked?)
    requires pc.Rejecting? ==> pc.run.status == RunFailed
    ensures var e := LocalStep(workflows, rec, pc, result);
            ErrorAt(e.rec, WhereTo(e.dest))
  {
    hide Blemished, RunOutput;
  }

  lemma StartingError(workflows: Workflows, rec: Record, pc: Pc, result: Result<Value, string>)
    requires ErrorAt(rec, Busy(pc)) && (pc.Created? || pc.Starting? || pc.Requeued?)
    ensures var e := LocalStep(workflows, rec, pc, result);
            ErrorAt(e.rec, WhereTo(e.dest))
  {
    var e := LocalStep(workflows, rec, pc, result);
    BlemishedSnoc(rec.log, e.rec.log[|rec.log|]);
    hide Blemished;
  }

  lemma LoggingError(workflows: Workflows, rec: Record, pc: Pc, result: Result<Value, string>)
    requires ErrorAt(rec, Busy(pc)) && (pc.Written? || pc.DeadLettered?) && rec.run == pc.run
    ensures var e := LocalStep(workflows, rec, pc, result);
            ErrorAt(e.rec, WhereTo(e.dest))
  {
    var e := LocalStep(workflows, rec, pc, result);
    BlemishedSnoc(rec.log, e.rec.log[|rec.log|]);
    hide Blemished;
  }

  lemma HeldRunStored(workflows: Workflows, rec: Record, pc: Pc)
    requires RunFits(workflows, rec, With(0, pc))
    ensures pc.Written? || pc.Returned? || pc.DeadLettered? ==> rec.run == pc.run
    ensures pc.Rejecting? ==> pc.run.status == RunFailed
    ensures !pc.Unresolvable?
  {
    hide PhaseOf, RecordFits;
  }

  lemma DecidingError(workflows: Workflows, rec: Record, pc: Pc, result: Result<Value, string>)
    requires ErrorAt(rec, Busy(pc)) && (pc.Returned? || pc.Announced? || pc.Scheduling?)
    ensures var e := LocalStep(workflows, rec, pc, result);
            ErrorAt(e.rec, WhereTo(e.dest))
  {
    hide Blemished, RetryOutput, DeadLetterOutput, RetryDelay;
  }

  lemma HoldingError(workflows: Workflows, rec: Record, pc: Pc, result: Result<Value, string>)
    requires ErrorAt(rec, Busy(pc)) && pc.Holding? && Resolves(workflows, pc)
    ensures var e := LocalStep(workflows, rec, pc, result);
            ErrorAt(e.rec, WhereTo(e.dest))
  {
    hide Blemished, Resolve, TrimSpace, MergeInput;
  }

  lemma LoadedError(workflows: Workflows, rec: Record, pc: Pc, result: Result<Value, string>)
    requires ErrorAt(rec, Busy(pc)) && pc.Loaded?
    ensures var e := LocalStep(workflows, rec, pc, result);
            ErrorAt(e.rec, WhereTo(e.dest))
  {
    BlemishedSnoc(rec.log, ApprovalResolvedEvent(pc.pending.waitingNodeID));
    hide Blemished, Decision, Thaw;
  }

  lemma ActError(rules: Rules, workflows: Workflows, rec: Record, pc: Pc, result: Result<Value, string>)
    requires rules.loud && ResultAllowed(rules, pc, result) && Resolves(workflows, pc)
    requires RunFits(workflows, rec, With(0, pc)) && ErrorAt(rec, Busy(pc))
    ensures var e := LocalStep(workflows, rec, pc, result);
            ErrorAt(e.rec, WhereTo(e.dest))
  {
    hide ErrorAt, LocalStep, RunFits, ResultAllowed, Resolves;
    HeldRunStored(workflows, rec, pc);
    match pc {
      case Holding(_) => HoldingError(workflows, rec, pc, result);
      case Walking(_, _, _, _, _) => WalkingError(rules, workflows, rec, pc, result);
      case Loaded(_, _, _, _, _, _) => LoadedError(workflows, rec, pc, result);
      case Stopped(_, _, _) => StoppedError(workflows, rec, pc, result);
      case Rejecting(_, _) => StoppedError(workflows, rec, pc, result);
      case Checked(_, _, _) => StoppedError(workflows, rec, pc, result);
      case Returned(_, _) => DecidingError(workflows, rec, pc, result);
      case Announced(_) => DecidingError(workflows, rec, pc, result);
      case Scheduling(_, _) => DecidingError(workflows, rec, pc, result);
      case Written(_, _) => LoggingError(workflows, rec, pc, result);
      case DeadLettered(_) => LoggingError(workflows, rec, pc, result);
      case _ => StartingError(workflows, rec, pc, result);
    }
  }

  lemma HandingError(rules: Rules, workflows: Workflows, rec: Record, w: Where, doing: Doing)
    requires ErrorAt(rec, w) && !w.Busy? && DoOne(rules, workflows, rec, w, doing).Some?
    ensures var (rec', w') := DoOne(rules, workflows, rec, w, doing).value;
            ErrorAt(rec', w')
  {
    hide Blemished, Resolve, MergeInput, InputAllowed;
  }

  lemma DoOneError(rules: Rules, workflows: Workflows, rec: Record, w: Where, doing: Doing)
    requires rules.loud && RunFits(workflows, rec, PlaceIn(w)) && ErrorAt(rec, w)
    requires DoOne(rules, workflows, rec, w, doing).Some?
    ensures var (rec', w') := DoOne(rules, workflows, rec, w, doing).value;
            ErrorAt(rec', w')
  {
    hide ErrorAt, RunFits, LocalStep, ResultAllowed, Resolves, LoadedFor;
    if w.Busy? {
      ActError(rules, workflows, rec, w.pc, doing.result);
    } else {
      HandingError(rules, workflows, rec, w, doing);
    }
  }

  lemma BornError(workflows: Workflows, rec: Record, w: Where)
    requires Born(workflows, rec, w)
    ensures ErrorAt(rec, w)
  {
    hide Resolve, TrimSpace;
  }

  lemma {:induction false} DoAllError(
    rules: Rules, workflows: Workflows, birth: Record, start: Where, doings: seq<Doing>)
    requires rules.loud && Born(workflows, birth, start) && DoAll(rules, workflows, birth, start, doings).Some?
    ensures var (rec, w) := DoAll(rules, workflows, birth, start, doings).value;
            ErrorAt(rec, w)
  {
    if doings == [] {
      BornError(workflows, birth, start);
    } else {
      hide *;
      var k := |doings| - 1;
      DoAllSnoc(rules, workflows, birth, start, doings);
      DoAllFits(rules, workflows, birth, start, doings[..k]);
      DoAllError(rules, workflows, birth, start, doings[..k]);
      var (rec, w) := DoAll(rules, workflows, birth, start, doings[..k]).value;
      DoOneError(rules, workflows, rec, w, doings[k]);
    }
  }

  /**
   * If node errors have messages, a run that no call is working on, completed or not, is stored with an error
   * exactly when one of its attempts has failed and no approval was resolved since: a retry that succeeds
   * does not clear the error of the attempt before it.
   */
  lemma ErrorStoredIff(rules: Rules, s: System, r: string, httpToolOK: Fields -> bool)
    requires ReachableBy(rules, s, httpToolOK) && rules.loud && r in s.db
    requires forall a :: a in s.agents ==> RunOf(s.agents[a]) != r
    ensures s.db[r].run.error != "" <==> Blemished(s.db[r].log)
  {
    hide ReachableBy, Born, DoAll, Blemished;
    var w, story := RunHasStory(rules, s, r, httpToolOK);
    DoAllError(rules, s.workflows, story.birth, story.start, story.doings);
  }
}
