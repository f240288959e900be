/** What a run reports agrees with its steps (`internal/executor/engine.go`, `graph.go`, `async.go`). */
module Outputs {
  import opened Text
  import opened Values
  import opened Workflow
  import opened Graphs
  import opened Engine
  import opened Once
  import opened Protocol

  /** Every step's output is the one kept for its node, and the last node is that of the last step. */
  ghost predicate Agree(steps: seq<Step>, outputs: Fields, lastNodeID: string) {
    && (forall i :: 0 <= i < |steps| ==> steps[i].nodeID in outputs && outputs[steps[i].nodeID] == steps[i].output)
    && lastNodeID == if steps == [] then "" else steps[|steps| - 1].nodeID
  }

  ghost predicate StateAgrees(st: State) {
    Agree(st.steps, st.stepOutputs, st.lastNodeID)
  }

  /** The ending names the node of its last step, and that step carries the ending's status, error or output. */
  ghost predicate Told(o: Outcome) {
    var steps := o.st.steps;
    match o
    case Finished(st) => StateAgrees(st)
    case Broken(st, nodeID, error) =>
      && steps != [] && steps[|steps| - 1].nodeID == nodeID == st.lastNodeID
      && steps[|steps| - 1].status == Failed && steps[|steps| - 1].error == error
    case Paused(st, output, pending) =>
      && steps != [] && steps[|steps| - 1].nodeID == pending.waitingNodeID == st.lastNodeID
      && steps[|steps| - 1].status == WaitingApproval && steps[|steps| - 1].output == output
      && pending.stepOutputs == st.stepOutputs && pending.executed == st.executed
  }

  lemma HeadIsNew(g: Graph, st: State, queued: set<string>)
    requires Tidy(st, queued) && st.queue != []
    ensures forall i :: 0 <= i < |st.steps| ==> st.steps[i].nodeID != st.queue[0]
  {
    assert Trail(st)[|st.steps|] == st.queue[0];
    forall i | 0 <= i < |st.steps| ensures st.steps[i].nodeID != st.queue[0] {
      assert Trail(st)[i] == st.steps[i].nodeID;
    }
  }

  lemma CompleteAgrees(g: Graph, st: State, queued: set<string>, output: Value)
    requires g.Valid() && Tidy(st, queued) && st.queue != [] && st.queue[0] in g.nodes && StateAgrees(st)
    ensures StateAgrees(Complete(g, st, queued, output).0)
  {
    HeadIsNew(g, st, queued);
    hide Tidy, Fresh, Next;
  }

  lemma StopTold(g: Graph, st: State, queued: set<string>, result: Result<Value, string>, decisions: seq<Value>)
    requires st.queue != [] && TakeTurn(g, st, queued, result, decisions).Stop?
    ensures Told(TakeTurn(g, st, queued, result, decisions).outcome)
  {
    hide Fresh, Next, ApprovalRequest;
  }

  /** Every step so far ran a node of the graph. */
  ghost predicate AllKnown(g: Graph, steps: seq<Step>) {
    forall i :: 0 <= i < |steps| ==> steps[i].nodeID in g.nodes
  }

  lemma TurnTold(g: Graph, body: Body, input: Fields, st: State, queued: set<string>, decisions: seq<Value>)
    requires g.Valid() && Tidy(st, queued) && st.queue != [] && StateAgrees(st) && AllKnown(g, st.steps)
    requires TakeTurn(g, st, queued, HeadResult(g, body, input, st), decisions).Go?
    ensures var st' := TakeTurn(g, st, queued, HeadResult(g, body, input, st), decisions).st;
            StateAgrees(st') && AllKnown(g, st'.steps) && st'.steps != []
  {
    hide Tidy, StateAgrees, AllKnown, Complete, Unvisited, HeadResult;
    TurnDecreases(g, body, input, st, queued, decisions);
    var output := HeadOutput(g, st, HeadResult(g, body, input, st), decisions);
    CompleteAgrees(g, st, queued, output);
    CompleteKnown(g, st, queued, output);
  }

  lemma CompleteKnown(g: Graph, st: State, queued: set<string>, output: Value)
    requires g.Valid() && st.queue != [] && st.queue[0] in g.nodes && AllKnown(g, st.steps)
    ensures AllKnown(g, Complete(g, st, queued, output).0.steps) && Complete(g, st, queued, output).0.steps != []
  {
    hide Fresh, Next;
  }

  lemma StopAddsOne(g: Graph, st: State, queued: set<string>, result: Result<Value, string>, decisions: seq<Value>)
    requires st.queue != [] && TakeTurn(g, st, queued, result, decisions).Stop?
    ensures var steps := TakeTurn(g, st, queued, result, decisions).outcome.st.steps;
            steps != [] && steps[..|steps| - 1] == st.steps
            && !TakeTurn(g, st, queued, result, decisions).outcome.Finished?
  {
    hide Freeze, ApprovalRequest;
  }

  lemma {:induction false} WalkTold(
    g: Graph, body: Body, input: Fields, st: State, queued: set<string>, decisions: seq<Value>)
    requires g.Valid() && Tidy(st, queued) && StateAgrees(st) && AllKnown(g, st.steps)
    requires st.queue != [] || st.steps != []
    ensures var o := Walk(g, body, input, st, queued, decisions);
            && Told(o) && o.st.steps != []
            && AllKnown(g, if o.Finished? then o.st.steps else o.st.steps[..|o.st.steps| - 1])
    decreases |Unvisited(g, st)|, Backlog(st.queue, st.executed)
  {
    hide Tidy, StateAgrees, AllKnown, Unvisited;
    if st.queue != [] {
      match TakeTurn(g, st, queued, HeadResult(g, body, input, st), decisions)
      case Stop(outcome) =>
        StopTold(g, st, queued, HeadResult(g, body, input, st), decisions);
        StopAddsOne(g, st, queued, HeadResult(g, body, input, st), decisions);
      case Go(st', queued', left) =>
        TurnDecreases(g, body, input, st, queued, decisions);
        TurnTidy(g, body, input, st, queued, decisions);
        TurnTold(g, body, input, st, queued, decisions);
        WalkTold(g, body, input, st', queued', left);
    }
  }

  lemma KnownNotBlank(d: Definition, httpToolOK: Fields -> bool, id: string)
    requires Accepted(d, httpToolOK) && id in GraphOf(d).nodes
    ensures id != ""
  {
    var n :| n in d.nodes && n.id == id;
    var i :| 0 <= i < |d.nodes| && d.nodes[i] == n;
    assert TrimSpace(d.nodes[i].id) != "";
  }

  lemma AcceptedStartsTidy(d: Definition, httpToolOK: Fields -> bool)
    requires Accepted(d, httpToolOK)
    ensures Tidy(NewState(GraphOf(d).roots), Elements(GraphOf(d).roots)) && GraphOf(d).roots != []
  {
    hide Tidy, Roots;
    AcceptedBuilds(d, httpToolOK);
    AcceptedRootsDistinct(d.nodes, d.edges, httpToolOK);
    hide Accepted;
    NewStateTidy(GraphOf(d).roots);
  }

  lemma NothingTold(g: Graph, roots: seq<string>)
    ensures StateAgrees(NewState(roots)) && AllKnown(g, NewState(roots).steps) && NewState(roots).queue == roots
  {}

  lemma StartTold(d: Definition, httpToolOK: Fields -> bool)
    requires Accepted(d, httpToolOK)
    ensures var g := GraphOf(d);
            var st := NewState(g.roots);
            Tidy(st, Elements(g.roots)) && StateAgrees(st) && AllKnown(g, st.steps) && st.queue != []
  {
    hide *;
    AcceptedStartsTidy(d, httpToolOK);
    NothingTold(GraphOf(d), GraphOf(d).roots);
  }

  /** A finished run's output is its last step's node and output. */
  ghost predicate ReportsLast(o: Outcome) {
    o.st.steps != []
    && var last := o.st.steps[|o.st.steps| - 1];
       o.Finished? ==> RunOutput(o.st) == Object(map["last_node" := Str(last.nodeID), "result" := last.output])
  }

  lemma FinishedReports(o: Outcome)
    requires o.st.steps != [] && Told(o)
    requires o.Finished? ==> o.st.steps[|o.st.steps| - 1].nodeID != ""
    ensures ReportsLast(o)
  {}

  /**
   * However an uninterrupted run of an accepted definition ends, whatever its decisions, it reports its last step:
   * a finished run its node and output, a failed one its node and error, a waiting one its node and request.
   */
  lemma RunReportsLastStep(
    d: Definition, httpToolOK: Fields -> bool, body: Body, input: Fields, decisions: seq<Value>)
    requires Accepted(d, httpToolOK)
    ensures var g := GraphOf(d);
            var o := Walk(g, body, input, NewState(g.roots), Elements(g.roots), decisions);
            Told(o) && ReportsLast(o)
  {
    hide Accepted, GraphOf, Walk, Tidy, NewState, StateAgrees, ReportsLast, Told;
    var g := GraphOf(d);
    StartTold(d, httpToolOK);
    WalkTold(g, body, input, NewState(g.roots), Elements(g.roots), decisions);
    var o := Walk(g, body, input, NewState(g.roots), Elements(g.roots), decisions);
    if o.Finished? {
      KnownNotBlank(d, httpToolOK, o.st.steps[|o.st.steps| - 1].nodeID);
    }
    FinishedReports(o);
  }
}
