/** From the record the first call stored to the one the last approval stored. */
module EndToEnd {
  import opened Text
  import opened Values
  import opened Workflow
  import opened Graphs
  import opened Engine
  import opened Resume
  import opened Outputs
  import opened StepBodies
  import opened Resumed
  import opened Runs
  import opened Protocol
  import opened Observed
  import opened Executor

  /** What is stored after the first call and after each decision: a waiting run is resumed, any other stays. */
  ghost predicate DecidedInTurn(g: Graph, body: Body, records: seq<Record>, decisions: seq<Value>) {
    && |records| == |decisions| + 1
    && forall i :: 0 <= i < |decisions| ==>
         if records[i].run.status == RunWaitingApproval then
           Resumes(g, body, map[], decisions[i], records[i], records[i + 1])
         else records[i + 1] == records[i]
  }

  lemma DecidedAfterFirst(g: Graph, body: Body, records: seq<Record>, decisions: seq<Value>)
    requires DecidedInTurn(g, body, records, decisions) && decisions != []
    ensures DecidedInTurn(g, body, records[1..], decisions[1..])
    ensures if records[0].run.status == RunWaitingApproval then
              Resumes(g, body, map[], decisions[0], records[0], records[1])
            else records[1] == records[0]
  {
    hide Resumes;
    forall i | 0 <= i < |decisions[1..]|
      ensures if records[1..][i].run.status == RunWaitingApproval then
                Resumes(g, body, map[], decisions[1..][i], records[1..][i], records[1..][i + 1])
              else records[1..][i + 1] == records[1..][i]
    {
      assert decisions[1..][i] == decisions[i + 1] && records[1..][i] == records[i + 1];
    }
  }

  lemma {:induction false} RecordsShowPieces(
    g: Graph, body: Body, input: Fields, st: State, records: seq<Record>, decisions: seq<Value>)
    requires g.Valid() && DecidedInTurn(g, body, records, decisions)
    requires Shows(records[0], Continue(g, body, input, st)) && records[0].run.input == input
    ensures Shows(records[|decisions|], Pieces(g, body, input, st, decisions))
    decreases |decisions|
  {
    if decisions != [] {
      DecidedAfterFirst(g, body, records, decisions);
      var o := Continue(g, body, input, st);
      hide DecidedInTurn, Continue, Walk, Thaw;
      if o.Paused? {
        NothingMerges(input);
        RecordsShowPieces(g, body, input, Thaw(o.st.steps, o.pending, decisions[0]), records[1..], decisions[1..]);
      } else {
        RecordsShowPieces(g, body, input, st, records[1..], decisions[1..]);
      }
    }
  }

  /**
   * A run of an accepted definition that is stored, parked and approved any number of times ends stored as
   * the uninterrupted run in which its approvals are ordinary nodes returning those decisions.
   */
  lemma ApprovedRunIsOneRun(
    d: Definition, httpToolOK: Fields -> bool, body: Body, input: Fields, records: seq<Record>, decisions: seq<Value>)
    requires Accepted(d, httpToolOK) && DecidedInTurn(GraphOf(d), body, records, decisions)
    requires Shows(records[0], Continue(GraphOf(d), body, input, NewState(GraphOf(d).roots)))
    requires records[0].run.input == input
    ensures var g := GraphOf(d);
            Shows(records[|decisions|], Walk(g, body, input, NewState(g.roots), Elements(g.roots), decisions))
  {
    hide Accepted, DecidedInTurn, Shows, Walk, Continue, Pieces;
    PauseResumeTransparent(d, httpToolOK, body, input, decisions);
    RecordsShowPieces(GraphOf(d), body, input, NewState(GraphOf(d).roots), records, decisions);
  }

  // The calls of a client

  function Approvals(comments: seq<string>): (decisions: seq<Value>)
    ensures |decisions| == |comments|
  {
    seq(|comments|, i requires 0 <= i < |comments| => Decision(true, comments[i]))
  }

  lemma ApprovalsSnoc(comments: seq<string>, i: nat)
    requires i < |comments|
    ensures Approvals(comments[..i + 1]) == Approvals(comments[..i]) + [Decision(true, comments[i])]
  {
    hide Decision;
  }

  lemma OneMoreDecided(
    g: Graph, body: Body, records: seq<Record>, decisions: seq<Value>, rec: Record, decision: Value)
    requires DecidedInTurn(g, body, records, decisions)
    requires var last := records[|records| - 1];
             if last.run.status == RunWaitingApproval then Resumes(g, body, map[], decision, last, rec) else rec == last
    ensures DecidedInTurn(g, body, records + [rec], decisions + [decision])
  {
    hide Resumes;
    var more, given := records + [rec], decisions + [decision];
    forall i | 0 <= i < |given|
      ensures if more[i].run.status == RunWaitingApproval then Resumes(g, body, map[], given[i], more[i], more[i + 1])
              else more[i + 1] == more[i]
    {
      assert i < |decisions| ==> given[i] == decisions[i] && more[i] == records[i] && more[i + 1] == records[i + 1];
    }
  }

  /** A parked run of an accepted definition can always be resumed. */
  lemma ParkedResumable(
    d: Definition, httpToolOK: Fields -> bool, body: Body, input: Fields, records: seq<Record>, decisions: seq<Value>)
    requires Accepted(d, httpToolOK) && DecidedInTurn(GraphOf(d), body, records, decisions)
    requires Shows(records[0], Continue(GraphOf(d), body, input, NewState(GraphOf(d).roots)))
    requires records[0].run.input == input
    ensures var rec := records[|decisions|];
            rec.run.status == RunWaitingApproval ==>
              && rec.pending.Some? && rec.steps != []
              && rec.steps[|rec.steps| - 1].nodeID == rec.pending.value.waitingNodeID
  {
    hide Accepted, DecidedInTurn, Walk, Continue, ApprovalRequest;
    ApprovedRunIsOneRun(d, httpToolOK, body, input, records, decisions);
    RunReportsLastStep(d, httpToolOK, body, input, decisions);
  }

  /**
   * A client that runs a workflow and approves whatever it waits for: each of its calls succeeds, and what the
   * last one leaves stored shows the uninterrupted run in which the approvals are nodes that return its decisions.
   */
  method RunApproving(
    service: Service, runID: string, tenantID: string, workflowID: string, input: Fields, comments: seq<string>,
    ghost httpToolOK: Fields -> bool)
    returns (r: Result<Run, string>)
    requires service.repository.Valid() && service.Unused(runID) && AllAccepted(service.workflows, httpToolOK)
    modifies service.repository, service.audit
    ensures r.Ok? <==> TrimSpace(tenantID) != "" && Resolve(service.workflows, tenantID, workflowID).Ok?
    ensures r.Ok? ==>
              && runID in service.repository.runs && service.repository.runs[runID] == r.value
              && var g := Resolve(service.workflows, tenantID, workflowID).value;
                 && g.Valid()
                 && Shows(service.RecordOf(runID), Walk(g, service.body, input, NewState(g.roots), Elements(g.roots),
                                                        Approvals(comments)))
                 && Ran(g, service.body, input, map[], service.repository.StepsOf(runID), Approvals(comments))
  {
    hide Ran, Walk, Continue, Resolve, TrimSpace, Shows, Resumes, Decision, Accepted, DecidedInTurn, Ends, Approvals,
         Found, Recorded, RanFrom, Overlays, Refuses, GoesOn;
    r := service.ExecuteSync(runID, tenantID, workflowID, input);
    if r.Err? {
      return;
    }
    ghost var d := ResolvedDefinition(service.workflows, tenantID, workflowID);
    ghost var g, records := GraphOf(d), [service.RecordOf(runID)];
    NothingDecided(g, service.body, service.RecordOf(runID));
    for i := 0 to |comments|
      invariant service.repository.Valid() && runID in service.repository.runs
      invariant r.Ok? && service.repository.runs[runID] == r.value
      invariant r.value.tenantID == tenantID && r.value.workflowID == workflowID
      invariant |records| == i + 1 && records[i] == service.RecordOf(runID)
      invariant DecidedInTurn(g, service.body, records, Approvals(comments[..i]))
      invariant Shows(records[0], Continue(g, service.body, input, NewState(g.roots))) && records[0].run.input == input
    {
      ApprovalsSnoc(comments, i);
      if r.value.status == RunWaitingApproval {
        ParkedResumable(d, httpToolOK, service.body, input, records, Approvals(comments[..i]));
        assert service.RecordOf(runID).pending.Some? && runID in service.repository.pending;
        r := service.ResumeApproval(tenantID, runID, true, comments[i], map[]);
      }
      OneMoreDecided(g, service.body, records, Approvals(comments[..i]), service.RecordOf(runID),
                     Decision(true, comments[i]));
      records := records + [service.RecordOf(runID)];
    }
    assert comments[..|comments|] == comments;
    ApprovedRunIsOneRun(d, httpToolOK, service.body, input, records, Approvals(comments));
    AcceptedRunRan(d, httpToolOK, service.body, input, Approvals(comments));
    ShownSteps(service.RecordOf(runID), Walk(g, service.body, input, NewState(g.roots), Elements(g.roots),
                                             Approvals(comments)));
  }

  lemma ResolvedDefinition(workflows: Workflows, tenantID: string, workflowID: string) returns (d: Definition)
    requires Resolve(workflows, tenantID, workflowID).Ok?
    ensures workflowID in workflows && d == workflows[workflowID].definition
    ensures Resolve(workflows, tenantID, workflowID) == Ok(GraphOf(d))
  {
    d := workflows[workflowID].definition;
  }

  lemma NothingDecided(g: Graph, body: Body, rec: Record)
    ensures Approvals([]) == [] && DecidedInTurn(g, body, [rec], [])
  {
    hide Resumes;
  }
}
