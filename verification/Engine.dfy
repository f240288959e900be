/** The worklist interpreter as a function (`internal/executor/engine.go`, `internal/executor/helpers.go`). */
module Engine {
  import opened Text
  import opened Values
  import opened Workflow
  import opened Graphs

  datatype StepStatus = WaitingApproval | Completed | Failed

  datatype Step = Step(
    nodeID: string,
    nodeType: string,
    status: StepStatus,
    config: Fields,
    output: Value,
    error: string)

  /** `executed` is the set of keys of a Go map whose only stored value is true. */
  datatype State = State(
    steps: seq<Step>,
    stepOutputs: Fields,
    lastNodeID: string,
    queue: seq<string>,
    executed: set<string>)

  datatype Pending = Pending(
    waitingNodeID: string,
    queue: seq<string>,
    stepOutputs: Fields,
    executed: set<string>)

  /** How a pass of the loop ends. */
  datatype Outcome =
    | Finished(st: State)
    | Broken(st: State, nodeID: string, error: string)
    | Paused(st: State, output: Value, pending: Pending)

  /** The node bodies (model calls, HTTP, retrieval, ...) seen from the loop. */
  type Body = (Node, Fields, Fields) -> Result<Value, string>

  predicate Executable(typ: string) {
    typ == "retrieve_documents" || typ == "llm" || typ == "condition" || typ == "http_tool" || typ == "audit_log"
  }

  function ExecuteNode(body: Body, node: Node, input: Fields, outputs: Fields): Result<Value, string> {
    if Executable(node.typ) then body(node, input, outputs)
    else Err("node type is not supported by sync execution yet")
  }

  function NewState(roots: seq<string>): State {
    State([], map[], "", roots, {})
  }

  /** The identifiers of `next` that are not blocked, each once, in order. */
  function Fresh(next: seq<string>, blocked: set<string>): (r: seq<string>)
    ensures forall x :: x in r <==> x in next && x !in blocked
    ensures Distinct(r)
  {
    if next == [] then []
    else
      assert next == [next[0]] + next[1..];
      if next[0] in blocked then Fresh(next[1..], blocked)
      else [next[0]] + Fresh(next[1..], blocked + {next[0]})
  }

  /** The new identifiers in `next`, each once, in the order in which they first occur. */
  ghost predicate FirstOccurrences(added: seq<string>, next: seq<string>, blocked: set<string>) {
    && Distinct(added)
    && (forall x :: x in added <==> x in next && x !in blocked)
    && (forall i, j :: 0 <= i < j < |added| ==> OccursBefore(next, added[i], added[j]))
  }

  ghost predicate OccursBefore(next: seq<string>, x: string, y: string) {
    exists a :: 0 <= a < |next| && next[a] == x && y !in next[..a + 1]
  }

  lemma OccursLater(next: seq<string>, x: string, y: string)
    requires next != [] && next[0] != y && OccursBefore(next[1..], x, y)
    ensures OccursBefore(next, x, y)
  {
    var a :| 0 <= a < |next[1..]| && next[1..][a] == x && y !in next[1..][..a + 1];
    assert next[..a + 2] == [next[0]] + next[1..][..a + 1];
    assert next[a + 1] == x;
  }

  lemma {:induction false} FreshInOrder(next: seq<string>, blocked: set<string>)
    ensures FirstOccurrences(Fresh(next, blocked), next, blocked)
  {
    if next != [] {
      var added := Fresh(next, blocked);
      var skipped := next[0] in blocked;
      var rest := Fresh(next[1..], if skipped then blocked else blocked + {next[0]});
      FreshInOrder(next[1..], if skipped then blocked else blocked + {next[0]});
      assert added == if skipped then rest else [next[0]] + rest;
      forall i, j | 0 <= i < j < |added| ensures OccursBefore(next, added[i], added[j]) {
        var k := if skipped then 0 else 1;
        assert added[j] == rest[j - k] && added[j] != next[0];
        if i < k {
          assert next[..0 + 1] == [next[0]];
        } else {
          assert added[i] == rest[i - k];
          OccursLater(next, added[i], added[j]);
        }
      }
    }
  }

  function CompletedStep(node: Node, output: Value): Step {
    Step(node.id, node.typ, Completed, node.config, output, "")
  }

  function FailedStep(node: Node, error: string): Step {
    Step(node.id, node.typ, Failed, node.config, Null, error)
  }

  function WaitingStep(node: Node): Step {
    Step(node.id, node.typ, WaitingApproval, node.config, ApprovalRequest(node), "")
  }

  function ApprovalRequest(node: Node): Value {
    Object(map["message" := Str(
      if "message" in node.config && node.config["message"].Str? && TrimSpace(node.config["message"].s) != ""
      then TrimSpace(node.config["message"].s) else "approval required")])
  }

  /** What an approval step holds once it is resolved. */
  function Decision(approved: bool, comment: string): Value {
    Object(map["approved" := Bool(approved), "comment" := Str(TrimSpace(comment))])
  }

  /** The head of the queue succeeded with `output`. */
  function Complete(g: Graph, st: State, queued: set<string>, output: Value): (r: (State, set<string>))
    requires st.queue != []
  {
    var node := g.Node(st.queue[0]);
    var executed := st.executed + {node.id};
    var waiting := queued - {st.queue[0]};
    var added := Fresh(Next(g, node, output), executed + waiting);
    (State(
       st.steps + [CompletedStep(node, output)],
       st.stepOutputs[node.id := output],
       node.id,
       st.queue[1..] + added,
       executed),
     waiting + Elements(added))
  }

  /** The head of the queue failed. */
  function Break(g: Graph, st: State, error: string): State
    requires st.queue != []
  {
    var node := g.Node(st.queue[0]);
    st.(steps := st.steps + [FailedStep(node, error)], lastNodeID := node.id, queue := st.queue[1..])
  }

  /** The head of the queue is an approval: the state the loop returns ... */
  function Wait(g: Graph, st: State): State
    requires st.queue != []
  {
    var node := g.Node(st.queue[0]);
    st.(steps := st.steps + [WaitingStep(node)], lastNodeID := node.id, queue := st.queue[1..])
  }

  /** ... and the record it freezes. Nothing marks the waiting node itself as executed here. */
  function Freeze(g: Graph, st: State): Pending
    requires st.queue != []
  {
    var node := g.Node(st.queue[0]);
    var rest := st.queue[1..];
    var next := Next(g, node, ApprovalRequest(node));
    Pending(node.id, rest + Fresh(next, st.executed + Elements(rest)), st.stepOutputs, st.executed)
  }

  /** The state an approved resume continues from. */
  function Thaw(steps: seq<Step>, pending: Pending, decision: Value): State
    requires steps != []
  {
    var last := |steps| - 1;
    State(
      steps[last := steps[last].(status := Completed, output := decision)],
      pending.stepOutputs[pending.waitingNodeID := decision],
      pending.waitingNodeID,
      pending.queue,
      pending.executed + {pending.waitingNodeID})
  }

  // Termination, for any graph and any state

  function Backlog(queue: seq<string>, executed: set<string>): nat {
    if queue == [] then 0
    else (if queue[0] in executed then 1 else 0) + Backlog(queue[1..], executed)
  }

  lemma {:induction false} BacklogAppend(a: seq<string>, b: seq<string>, executed: set<string>)
    requires forall x :: x in b ==> x !in executed
    ensures Backlog(a + b, executed) == Backlog(a, executed)
  {
    if a == [] {
      assert a + b == b;
      if b != [] {
        assert b == [b[0]] + b[1..];
        BacklogAppend([], b[1..], executed);
        assert [] + b[1..] == b[1..];
      }
    } else {
      assert (a + b)[1..] == a[1..] + b;
      BacklogAppend(a[1..], b, executed);
    }
  }

  function Unvisited(g: Graph, st: State): set<string> {
    g.nodes.Keys - st.executed
  }

  lemma CompleteDecreases(g: Graph, st: State, queued: set<string>, output: Value)
    requires g.Valid() && st.queue != [] && st.queue[0] in g.nodes
    ensures var st' := Complete(g, st, queued, output).0;
            || |Unvisited(g, st')| < |Unvisited(g, st)|
            || (Unvisited(g, st') == Unvisited(g, st)
                && Backlog(st'.queue, st'.executed) < Backlog(st.queue, st.executed))
  {
    var id := st.queue[0];
    var st' := Complete(g, st, queued, output).0;
    var added := Fresh(Next(g, g.Node(id), output), st.executed + {id} + (queued - {id}));
    if id in st.executed {
      assert st.executed + {id} == st.executed;
      BacklogAppend(st.queue[1..], added, st.executed);
    } else {
      assert Unvisited(g, st') == Unvisited(g, st) - {id};
    }
  }

  /** One iteration either ends the pass or goes on with a new worklist and the decisions left. */
  datatype Turn = Stop(outcome: Outcome) | Go(st: State, queued: set<string>, decisions: seq<Value>)

  /**
   * One iteration over a non-empty queue, where `result` is what the node's body returns. An approval
   * met while a decision is in hand is an ordinary node that returns it; with none it pauses.
   */
  function TakeTurn(
    g: Graph, st: State, queued: set<string>, result: Result<Value, string>, decisions: seq<Value>): Turn
    requires st.queue != []
  {
    var node := g.Node(st.queue[0]);
    if node.typ == "approval" then
      if decisions == [] then Stop(Paused(Wait(g, st), ApprovalRequest(node), Freeze(g, st)))
      else
        var (st', queued') := Complete(g, st, queued, decisions[0]);
        Go(st', queued', decisions[1..])
    else
      match result
      case Err(e) => Stop(Broken(Break(g, st, e), node.id, e))
      case Ok(output) =>
        var (st', queued') := Complete(g, st, queued, output);
        Go(st', queued', decisions)
  }

  lemma NoDecisionsLeft(g: Graph, st: State, queued: set<string>, result: Result<Value, string>)
    requires st.queue != [] && TakeTurn(g, st, queued, result, []).Go?
    ensures TakeTurn(g, st, queued, result, []).decisions == []
  {}

  function HeadResult(g: Graph, body: Body, input: Fields, st: State): Result<Value, string>
    requires st.queue != []
  {
    ExecuteNode(body, g.Node(st.queue[0]), input, st.stepOutputs)
  }

  /** The output the head completes with when the turn goes on. */
  function HeadOutput(g: Graph, st: State, result: Result<Value, string>, decisions: seq<Value>): Value
    requires st.queue != []
    requires TakeTurn(g, st, {}, result, decisions).Go?
  {
    if g.Node(st.queue[0]).typ == "approval" then decisions[0] else result.value
  }

  lemma TurnDecreases(g: Graph, body: Body, input: Fields, st: State, queued: set<string>, decisions: seq<Value>)
    requires g.Valid() && st.queue != []
    requires TakeTurn(g, st, queued, HeadResult(g, body, input, st), decisions).Go?
    ensures st.queue[0] in g.nodes
    ensures var st' := TakeTurn(g, st, queued, HeadResult(g, body, input, st), decisions).st;
            || |Unvisited(g, st')| < |Unvisited(g, st)|
            || (Unvisited(g, st') == Unvisited(g, st)
                && Backlog(st'.queue, st'.executed) < Backlog(st.queue, st.executed))
  {
    CompleteDecreases(g, st, queued, HeadOutput(g, st, HeadResult(g, body, input, st), decisions));
  }

  /** The loop, with a list of approval decisions in hand. The code's loop has none. */
  function Walk(g: Graph, body: Body, input: Fields, st: State, queued: set<string>, decisions: seq<Value>): Outcome
    requires g.Valid()
    decreases |Unvisited(g, st)|, Backlog(st.queue, st.executed)
  {
    if st.queue == [] then Finished(st)
    else
      match TakeTurn(g, st, queued, HeadResult(g, body, input, st), decisions)
      case Stop(outcome) => outcome
      case Go(st', queued', left) =>
        TurnDecreases(g, body, input, st, queued, decisions);
        Walk(g, body, input, st', queued', left)
  }

  lemma WalkUnfolds(g: Graph, body: Body, input: Fields, st: State, queued: set<string>, decisions: seq<Value>)
    requires g.Valid()
    ensures Walk(g, body, input, st, queued, decisions)
            == if st.queue == [] then Finished(st)
               else
                 var turn := TakeTurn(g, st, queued, HeadResult(g, body, input, st), decisions);
                 if turn.Stop? then turn.outcome
                 else Walk(g, body, input, turn.st, turn.queued, turn.decisions)
  {
    hide TakeTurn, HeadResult;
  }

  /** A turn stops at a failure or an approval, or completes the head. */
  lemma TurnShape(g: Graph, st: State, queued: set<string>, result: Result<Value, string>, decisions: seq<Value>)
    requires st.queue != []
    ensures TakeTurn(g, st, queued, result, decisions).Go? <==> TakeTurn(g, st, {}, result, decisions).Go?
    ensures var turn := TakeTurn(g, st, queued, result, decisions);
            if turn.Stop? then !turn.outcome.Finished?
            else (turn.st, turn.queued) == Complete(g, st, queued, HeadOutput(g, st, result, decisions))
  {
    hide Complete, Break, Wait, Freeze, ApprovalRequest;
  }

  /** What one call of the loop computes. */
  function Continue(g: Graph, body: Body, input: Fields, st: State): Outcome
    requires g.Valid()
  {
    Walk(g, body, input, st, Elements(st.queue), [])
  }

  /** A run in pieces: whenever the loop pauses and a decision is left, thaw the record and go on. */
  function Pieces(g: Graph, body: Body, input: Fields, st: State, decisions: seq<Value>): Outcome
    requires g.Valid()
    decreases |decisions|
  {
    var o := Continue(g, body, input, st);
    if o.Paused? && decisions != [] && o.st.steps != []
    then Pieces(g, body, input, Thaw(o.st.steps, o.pending, decisions[0]), decisions[1..])
    else o
  }
}
