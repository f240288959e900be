/** What holds of the run the code performs, cut at its approvals and resumed. */
module Resumed {
  import opened Text
  import opened Values
  import opened Workflow
  import opened Graphs
  import opened Engine
  import opened Forest
  import opened Once
  import opened Resume
  import opened BreadthFirst
  import opened Outputs
  import opened StepBodies

  /** No node of a resumed run has two steps, on any graph, cyclic or not, without self-approvals. */
  lemma ResumedRunsOnce(g: Graph, body: Body, input: Fields, roots: seq<string>, decisions: seq<Value>)
    requires g.Valid() && NoSelfApproval(g) && Distinct(roots)
    ensures RanOnce(Pieces(g, body, input, NewState(roots), decisions))
  {
    hide Pieces, Walk, RanOnce, Tidy;
    NewStateTidy(roots);
    PiecesAreOneRun(g, body, input, NewState(roots), Elements(roots), decisions);
    NodesRunOnce(g, body, input, NewState(roots), Elements(roots), decisions);
  }

  /** A finished resumed run executed the least set that holds the roots and is closed under the edges taken. */
  lemma ResumedExecutedLeastClosed(
    g: Graph, body: Body, input: Fields, roots: seq<string>, decisions: seq<Value>, s: set<string>)
    requires g.Valid() && NoSelfApproval(g) && Distinct(roots)
    requires Pieces(g, body, input, NewState(roots), decisions).Finished?
    ensures var o := Pieces(g, body, input, NewState(roots), decisions);
            && Closed(g, roots, o.st.stepOutputs, o.st.executed)
            && o.st.executed == o.st.stepOutputs.Keys
            && (Closed(g, roots, o.st.stepOutputs, s) ==> o.st.executed <= s)
  {
    hide Pieces, Walk, Closed, Tidy;
    NewStateTidy(roots);
    PiecesAreOneRun(g, body, input, NewState(roots), Elements(roots), decisions);
    ExecutedIsLeastClosed(g, body, input, roots, decisions, s);
  }

  lemma FailingStepIsNew(g: Graph, o: Outcome)
    requires RanOnce(o) && Told(o) && o.st.steps != []
    requires AllKnown(g, if o.Finished? then o.st.steps else o.st.steps[..|o.st.steps| - 1])
    requires "" !in g.nodes
    ensures Distinct(NodeIDs(o.st.steps))
  {
    if o.Broken? && o.nodeID == "" {
      var k := |o.st.steps| - 1;
      var front, last := o.st.steps[..k], o.st.steps[k];
      NodeIDsSnoc(front, last);
      assert o.st.steps == front + [last];
      assert forall i :: 0 <= i < k ==> NodeIDs(front)[i] == front[i].nodeID && front[i].nodeID in g.nodes;
    }
  }

  lemma BlankUnknown(d: Definition, httpToolOK: Fields -> bool)
    requires Accepted(d, httpToolOK)
    ensures "" !in GraphOf(d).nodes
  {
    hide Accepted;
    if "" in GraphOf(d).nodes {
      KnownNotBlank(d, httpToolOK, "");
    }
  }

  /** In a run of an accepted definition, untrimmed identifiers included, no two steps have the same node. */
  lemma AcceptedNoRepeats(
    d: Definition, httpToolOK: Fields -> bool, body: Body, input: Fields, decisions: seq<Value>)
    requires Accepted(d, httpToolOK)
    ensures GraphOf(d).Valid()
    ensures Distinct(NodeIDs(
              Walk(GraphOf(d), body, input, NewState(GraphOf(d).roots), Elements(GraphOf(d).roots),
                   decisions).st.steps))
  {
    hide *;
    var g := GraphOf(d);
    StartTold(d, httpToolOK);
    BlankUnknown(d, httpToolOK);
    WalkTold(g, body, input, NewState(g.roots), Elements(g.roots), decisions);
    NodesRunOnce(g, body, input, NewState(g.roots), Elements(g.roots), decisions);
    FailingStepIsNew(g, Walk(g, body, input, NewState(g.roots), Elements(g.roots), decisions));
  }

  /** And the run cut at its approvals is no different; however it ends, it reports its last step. */
  lemma AcceptedResumedRun(
    d: Definition, httpToolOK: Fields -> bool, body: Body, input: Fields, decisions: seq<Value>)
    requires Accepted(d, httpToolOK)
    ensures var o := Pieces(GraphOf(d), body, input, NewState(GraphOf(d).roots), decisions);
            Distinct(NodeIDs(o.st.steps)) && Told(o) && ReportsLast(o)
  {
    hide Accepted, Pieces, Walk, Told, ReportsLast, GraphOf;
    AcceptedNoRepeats(d, httpToolOK, body, input, decisions);
    PauseResumeTransparent(d, httpToolOK, body, input, decisions);
    RunReportsLastStep(d, httpToolOK, body, input, decisions);
  }

  /** With trimmed identifiers its steps are in breadth-first order, parents before children. */
  lemma AcceptedResumedBreadthFirst(
    d: Definition, httpToolOK: Fields -> bool, body: Body, input: Fields, decisions: seq<Value>)
    requires Accepted(d, httpToolOK) && TrimmedDefinition(d)
    ensures var g := GraphOf(d);
            var o := Pieces(g, body, input, NewState(g.roots), decisions);
            && PlainWalk(g, body, input, NewState(g.roots), decisions, |g.nodes|) == Some(o)
            && BreadthFirstSteps(d, o.st.steps)
  {
    hide Accepted, TrimmedDefinition, Pieces, Walk, PlainWalk, BreadthFirstSteps, GraphOf;
    PauseResumeTransparent(d, httpToolOK, body, input, decisions);
    AcceptedRunIsBreadthFirst(d, httpToolOK, body, input, decisions);
  }

  // What its steps hold

  /** Trimmed definitions hold only types the engine knows, and its runs only their nodes. */
  lemma TypesKnown(d: Definition, httpToolOK: Fields -> bool, id: string)
    requires Accepted(d, httpToolOK) && TrimmedDefinition(d) && id in GraphOf(d).nodes
    ensures GraphOf(d).nodes[id].typ
            in {"retrieve_documents", "llm", "condition", "http_tool", "approval", "audit_log"}
  {
    var n := GraphOf(d).nodes[id];
    AcceptedMeans(d, httpToolOK);
    assert n in d.nodes && Trimmed(n.typ);
    hide Accepted, TrimSpace, EndpointRules, BranchRules;
  }

  lemma StepsKnown(d: Definition, steps: seq<Step>)
    requires ForestDefinition(d) && BreadthFirstSteps(d, steps)
    ensures AllKnown(GraphOf(d), steps)
  {
    var trail := NodeIDs(steps);
    hide SingleEntry, Layered;
    forall i | 0 <= i < |steps| ensures steps[i].nodeID in GraphOf(d).nodes {
      assert trail[i] == steps[i].nodeID;
      if !IsRoot(d, trail[i]) {
        assert ParentBefore(d, trail, |steps|, i);
      }
    }
  }

  /**
   * Every uninterrupted run of an accepted definition, whatever its decisions: step by step it is what the bodies
   * and decisions made of the outputs before. With trimmed identifiers and types every node has a body or is an
   * approval, so the run fails only where a body does.
   */
  lemma AcceptedRunRan(
    d: Definition, httpToolOK: Fields -> bool, body: Body, input: Fields, decisions: seq<Value>)
    requires Accepted(d, httpToolOK)
    ensures var g := GraphOf(d);
            var o := Walk(g, body, input, NewState(g.roots), Elements(g.roots), decisions);
            && Ran(g, body, input, map[], o.st.steps, decisions)
            && (TrimmedDefinition(d) && o.Broken? ==>
                  o.nodeID in g.nodes && body(g.nodes[o.nodeID], input, o.st.stepOutputs) == Err(o.error))
  {
    var g := GraphOf(d);
    var o := Walk(g, body, input, NewState(g.roots), Elements(g.roots), decisions);
    BlankUnknown(d, httpToolOK);
    WalkRan(g, body, input, NewState(g.roots), Elements(g.roots), decisions);
    FromNothing(NewState(g.roots), o.st.steps);
    hide Walk, Accepted, TrimmedDefinition, Ran, GraphOf;
    if TrimmedDefinition(d) && o.Broken? {
      AcceptedForest(d, httpToolOK);
      AcceptedRunIsBreadthFirst(d, httpToolOK, body, input, decisions);
      RunReportsLastStep(d, httpToolOK, body, input, decisions);
      StepsKnown(d, o.st.steps);
      hide ForestDefinition, BreadthFirstSteps, PlainWalk, ReportsLast;
      assert o.st.steps[|o.st.steps| - 1].nodeID == o.nodeID;
      TypesKnown(d, httpToolOK, o.nodeID);
    }
  }

  lemma FromNothing(st: State, steps: seq<Step>)
    requires st == NewState(st.queue)
    ensures st.steps <= steps && Since(st.steps, steps) == steps && st.stepOutputs == map[]
  {}

  /** The run in pieces likewise, decisions included. */
  lemma AcceptedPiecesRan(
    d: Definition, httpToolOK: Fields -> bool, body: Body, input: Fields, decisions: seq<Value>)
    requires Accepted(d, httpToolOK)
    ensures var g := GraphOf(d);
            var o := Pieces(g, body, input, NewState(g.roots), decisions);
            && Ran(g, body, input, map[], o.st.steps, decisions)
            && (TrimmedDefinition(d) && o.Broken? ==>
                  o.nodeID in g.nodes && body(g.nodes[o.nodeID], input, o.st.stepOutputs) == Err(o.error))
  {
    hide Accepted, TrimmedDefinition, Pieces, Walk, Ran, GraphOf;
    PauseResumeTransparent(d, httpToolOK, body, input, decisions);
    AcceptedRunRan(d, httpToolOK, body, input, decisions);
  }
}
