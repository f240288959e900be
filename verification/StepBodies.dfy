/**
 * The steps of a run are what the bodies of its nodes and the decisions on its approvals made of the outputs before
 * them, types, configurations and messages included (`internal/executor/engine.go`, `internal/executor/service.go`).
 */
module StepBodies {
  import opened Text
  import opened Values
  import opened Workflow
  import opened Graphs
  import opened Engine

  /** The message an approval asks with: its own if it has a text that is not blank, or the default. */
  ghost predicate Asks(config: Fields, output: Value) {
    && output.Object? && output.fields.Keys == {"message"} && output.fields["message"].Str?
    && var message := output.fields["message"].s;
       if "message" in config && config["message"].Str? && (exists c :: c in config["message"].s && c !in WHITE) then
         message == TrimSpace(config["message"].s)
       else message == "approval required"
  }

  /**
   * The steps of a pass that starts with these outputs and has these decisions in hand. The types that have bodies
   * are the validator's without the approval; an approval takes the next decision, or waits. An identifier that no
   * node has stands for a node without name and type.
   */
  ghost predicate Ran(
    g: Graph, body: Body, input: Fields, outputs: Fields, steps: seq<Step>, decisions: seq<Value>)
    decreases |steps|
  {
    steps == [] ||
    var step := steps[0];
    var node := if step.nodeID in g.nodes then g.nodes[step.nodeID] else Workflow.Node("", "", map[]);
    && step.nodeID == node.id && step.nodeType == node.typ && step.config == node.config
    && if node.typ == "approval" && decisions == [] then
         |steps| == 1 && step.status == WaitingApproval && step.error == "" && Asks(node.config, step.output)
       else if node.typ == "approval" then
         && step.status == Completed && step.error == "" && step.output == decisions[0]
         && Ran(g, body, input, outputs[step.nodeID := step.output], steps[1..], decisions[1..])
       else if node.typ in {"retrieve_documents", "llm", "condition", "http_tool", "audit_log"} then
         match body(node, input, outputs)
         case Ok(output) =>
           && step.status == Completed && step.error == "" && step.output == output
           && Ran(g, body, input, outputs[step.nodeID := output], steps[1..], decisions)
         case Err(error) => |steps| == 1 && step.status == Failed && step.output == Null && step.error == error
       else
         && |steps| == 1 && step.status == Failed && step.output == Null
         && step.error == "node type is not supported by sync execution yet"
  }

  /** A failure is the body's own, unless the node's type has no body. */
  ghost predicate FailsByBody(g: Graph, body: Body, input: Fields, o: Outcome) {
    o.Broken? ==>
      var node := if o.nodeID in g.nodes then g.nodes[o.nodeID] else Workflow.Node("", "", map[]);
      && o.nodeID == node.id && node.typ != "approval"
      && if node.typ in {"retrieve_documents", "llm", "condition", "http_tool", "audit_log"} then
           body(node, input, o.st.stepOutputs) == Err(o.error)
         else o.error == "node type is not supported by sync execution yet"
  }

  /** The ending is told by its last step; a run that ends of itself has only completed steps since. */
  ghost predicate EndsAt(o: Outcome, before: nat) {
    && before <= |o.st.steps|
    && match o
       case Finished(st) => forall i :: before <= i < |st.steps| ==> st.steps[i].status == Completed
       case Broken(st, nodeID, error) =>
         before < |st.steps|
         && var last := st.steps[|st.steps| - 1];
            last.status == Failed && last.nodeID == nodeID && last.error == error
       case Paused(st, output, pending) =>
         before < |st.steps|
         && var last := st.steps[|st.steps| - 1];
            last.status == WaitingApproval && last.nodeID == pending.waitingNodeID && last.output == output
  }

  lemma RequestAsks(node: Node)
    ensures Asks(node.config, ApprovalRequest(node))
  {
    if "message" in node.config && node.config["message"].Str? {
      var s := node.config["message"].s;
      TrimSpaceMeans(s);
      hide TrimSpace;
      var i: nat, j: nat :| Trims(s, i, j);
      if i < j {
        assert s[i] in s;
      } else {
        assert forall c :: c in s ==> c in WHITE;
      }
    }
  }

  /** The steps a pass adds to the ones there were. */
  function Since(before: seq<Step>, after: seq<Step>): seq<Step>
    requires before <= after
  {
    after[|before|..]
  }

  lemma HeadNamed(g: Graph, st: State)
    requires g.Valid() && "" !in g.nodes && st.queue != []
    ensures var node := g.Node(st.queue[0]);
            if st.queue[0] in g.nodes then node == g.nodes[node.id] && node.id in g.nodes
            else node == Workflow.Node("", "", map[])
  {}

  lemma OneStepSince(steps: seq<Step>, s: Step)
    ensures steps <= steps + [s] && Since(steps, steps + [s]) == [s]
  {}

  lemma WaitRan(g: Graph, body: Body, input: Fields, st: State)
    requires g.Valid() && "" !in g.nodes && st.queue != [] && g.Node(st.queue[0]).typ == "approval"
    ensures var o := Paused(Wait(g, st), ApprovalRequest(g.Node(st.queue[0])), Freeze(g, st));
            && st.steps <= o.st.steps && Ran(g, body, input, st.stepOutputs, Since(st.steps, o.st.steps), [])
            && FailsByBody(g, body, input, o) && EndsAt(o, |st.steps|)
  {
    var node := g.Node(st.queue[0]);
    HeadNamed(g, st);
    RequestAsks(node);
    OneStepSince(st.steps, WaitingStep(node));
    hide Fresh, Next, ApprovalRequest, Asks;
  }

  lemma BreakRan(
    g: Graph, body: Body, input: Fields, st: State, decisions: seq<Value>, error: string)
    requires g.Valid() && "" !in g.nodes && st.queue != [] && g.Node(st.queue[0]).typ != "approval"
    requires HeadResult(g, body, input, st) == Err(error)
    ensures var o := Broken(Break(g, st, error), g.Node(st.queue[0]).id, error);
            && st.steps <= o.st.steps && Ran(g, body, input, st.stepOutputs, Since(st.steps, o.st.steps), decisions)
            && FailsByBody(g, body, input, o) && EndsAt(o, |st.steps|)
  {
    HeadNamed(g, st);
    OneStepSince(st.steps, FailedStep(g.Node(st.queue[0]), error));
  }

  lemma StopRan(g: Graph, body: Body, input: Fields, st: State, queued: set<string>, decisions: seq<Value>)
    requires g.Valid() && "" !in g.nodes && st.queue != []
    requires TakeTurn(g, st, queued, HeadResult(g, body, input, st), decisions).Stop?
    ensures var o := TakeTurn(g, st, queued, HeadResult(g, body, input, st), decisions).outcome;
            && st.steps <= o.st.steps && Ran(g, body, input, st.stepOutputs, Since(st.steps, o.st.steps), decisions)
            && FailsByBody(g, body, input, o) && EndsAt(o, |st.steps|)
  {
    hide Ran, FailsByBody, EndsAt, Wait, Break, Freeze, ApprovalRequest, HeadResult, Complete;
    if g.Node(st.queue[0]).typ == "approval" {
      WaitRan(g, body, input, st);
    } else {
      BreakRan(g, body, input, st, decisions, HeadResult(g, body, input, st).error);
    }
  }

  /** One more step in front, when the turn went on. */
  lemma GoRan(
    g: Graph, body: Body, input: Fields, st: State, queued: set<string>, decisions: seq<Value>, steps: seq<Step>)
    requires g.Valid() && "" !in g.nodes && st.queue != []
    requires TakeTurn(g, st, queued, HeadResult(g, body, input, st), decisions).Go?
    requires var turn := TakeTurn(g, st, queued, HeadResult(g, body, input, st), decisions);
             turn.st.steps <= steps
             && Ran(g, body, input, turn.st.stepOutputs, Since(turn.st.steps, steps), turn.decisions)
    ensures st.steps <= steps && Ran(g, body, input, st.stepOutputs, Since(st.steps, steps), decisions)
    ensures var turn := TakeTurn(g, st, queued, HeadResult(g, body, input, st), decisions);
            |turn.st.steps| == |st.steps| + 1 && turn.st.steps[|st.steps|].status == Completed
  {
    hide Fresh, Next, Asks;
    HeadNamed(g, st);
    var turn := TakeTurn(g, st, queued, HeadResult(g, body, input, st), decisions);
    var more := Since(st.steps, steps);
    assert more != [] && more[1..] == Since(turn.st.steps, steps);
    assert more[0] == turn.st.steps[|st.steps|];
  }

  lemma FinishedRan(g: Graph, body: Body, input: Fields, st: State, decisions: seq<Value>)
    ensures st.steps <= st.steps && Ran(g, body, input, st.stepOutputs, Since(st.steps, st.steps), decisions)
    ensures FailsByBody(g, body, input, Finished(st)) && EndsAt(Finished(st), |st.steps|)
  {
    assert Since(st.steps, st.steps) == [];
  }

  /** What a turn that went on did to the walk that follows. */
  lemma EndsAfterGo(o: Outcome, n: nat)
    requires EndsAt(o, n + 1) && n + 1 <= |o.st.steps| && o.st.steps[n].status == Completed
    ensures EndsAt(o, n)
  {}

  /** From any state, on any graph without a blank node. */
  lemma {:induction false} WalkRan(
    g: Graph, body: Body, input: Fields, st: State, queued: set<string>, decisions: seq<Value>)
    requires g.Valid() && "" !in g.nodes
    ensures var o := Walk(g, body, input, st, queued, decisions);
            && st.steps <= o.st.steps && Ran(g, body, input, st.stepOutputs, Since(st.steps, o.st.steps), decisions)
            && FailsByBody(g, body, input, o) && EndsAt(o, |st.steps|)
    decreases |Unvisited(g, st)|, Backlog(st.queue, st.executed)
  {
    WalkUnfolds(g, body, input, st, queued, decisions);
    FinishedRan(g, body, input, st, decisions);
    hide *;
    if st.queue != [] {
      var turn := TakeTurn(g, st, queued, HeadResult(g, body, input, st), decisions);
      if turn.Stop? {
        StopRan(g, body, input, st, queued, decisions);
      } else {
        TurnDecreases(g, body, input, st, queued, decisions);
        WalkRan(g, body, input, turn.st, turn.queued, turn.decisions);
        var o := Walk(g, body, input, turn.st, turn.queued, turn.decisions);
        GoRan(g, body, input, st, queued, decisions, o.st.steps);
        assert o.st.steps[|st.steps|] == turn.st.steps[|st.steps|];
        EndsAfterGo(o, |st.steps|);
      }
    }
  }

  /** A refused run: its last step is resolved by the decision it was refused with. */
  lemma {:induction false} ResolvedRan(
    g: Graph, body: Body, input: Fields, outputs: Fields, steps: seq<Step>, decisions: seq<Value>, decision: Value)
    requires Ran(g, body, input, outputs, steps, decisions)
    requires steps != [] && steps[|steps| - 1].status == WaitingApproval
    ensures var last := |steps| - 1;
            Ran(g, body, input, outputs, steps[last := steps[last].(status := Completed, output := decision)],
                decisions + [decision])
    decreases |steps|
  {
    hide Asks;
    var last := |steps| - 1;
    var resolved := steps[last := steps[last].(status := Completed, output := decision)];
    if last == 0 {
      assert resolved[1..] == [];
    } else {
      var approval := steps[0].nodeType == "approval";
      var left := if approval then decisions[1..] else decisions;
      assert resolved[1..] == steps[1..][last - 1 := resolved[last]];
      assert (decisions + [decision])[if approval then 1 else 0 ..] == left + [decision];
      ResolvedRan(g, body, input, outputs[steps[0].nodeID := steps[0].output], steps[1..], left, decision);
    }
  }

  /** The last node is that of the last step, whose output is the one kept for it. */
  ghost predicate LastTold(st: State) {
    st.steps != [] ==>
      var last := st.steps[|st.steps| - 1];
      && last.nodeID == st.lastNodeID && last.nodeID != ""
      && last.nodeID in st.stepOutputs && st.stepOutputs[last.nodeID] == last.output
  }

  lemma TurnLast(g: Graph, st: State, queued: set<string>, result: Result<Value, string>, decisions: seq<Value>)
    requires g.Valid() && "" !in g.nodes && st.queue != [] && st.queue[0] in g.nodes
    requires TakeTurn(g, st, queued, result, decisions).Go?
    ensures LastTold(TakeTurn(g, st, queued, result, decisions).st)
  {
    hide Fresh, Next;
  }

  lemma {:induction false} WalkLast(
    g: Graph, body: Body, input: Fields, st: State, queued: set<string>, decisions: seq<Value>)
    requires g.Valid() && "" !in g.nodes && LastTold(st)
    ensures var o := Walk(g, body, input, st, queued, decisions);
            o.Finished? ==> LastTold(o.st)
    decreases |Unvisited(g, st)|, Backlog(st.queue, st.executed)
  {
    WalkUnfolds(g, body, input, st, queued, decisions);
    hide *;
    if st.queue != [] {
      var turn := TakeTurn(g, st, queued, HeadResult(g, body, input, st), decisions);
      TurnShape(g, st, queued, HeadResult(g, body, input, st), decisions);
      if turn.Go? {
        TurnDecreases(g, body, input, st, queued, decisions);
        TurnLast(g, st, queued, HeadResult(g, body, input, st), decisions);
        WalkLast(g, body, input, turn.st, turn.queued, turn.decisions);
      }
    }
  }
}
