/** Every node runs at most once, and a finished run executed exactly what the taken edges reach. */
module Once {
  import opened Values
  import opened Graphs
  import opened Engine

  function NodeIDs(steps: seq<Step>): seq<string> {
    seq(|steps|, i requires 0 <= i < |steps| => steps[i].nodeID)
  }

  /** The order in which nodes ran and are going to run. */
  function Trail(st: State): seq<string> {
    NodeIDs(st.steps) + st.queue
  }

  /** The bookkeeping between two turns of the loop. */
  ghost predicate Tidy(st: State, queued: set<string>) {
    && queued == Elements(st.queue)
    && Distinct(Trail(st))
    && Elements(NodeIDs(st.steps)) == st.executed == st.stepOutputs.Keys
    && (forall s :: s in st.steps ==> s.status == Completed)
  }

  /** A fresh run over distinct roots starts tidy. */
  lemma NewStateTidy(roots: seq<string>)
    requires Distinct(roots)
    ensures Tidy(NewState(roots), Elements(roots))
  {
    assert Trail(NewState(roots)) == roots;
    assert NodeIDs([]) == [];
  }

  lemma DistinctParts(a: seq<string>, b: seq<string>)
    requires Distinct(a + b)
    ensures Distinct(a) && Distinct(b)
    ensures forall x :: x in a ==> x !in b
  {
    var all := a + b;
    forall i, j | 0 <= i < j < |a| ensures a[i] != a[j] {
      assert all[i] == a[i] && all[j] == a[j];
    }
    forall i, j | 0 <= i < j < |b| ensures b[i] != b[j] {
      assert all[|a| + i] == b[i] && all[|a| + j] == b[j];
    }
    forall i, j | 0 <= i < |a| && 0 <= j < |b| ensures a[i] != b[j] {
      assert all[i] == a[i] && all[|a| + j] == b[j];
    }
  }

  lemma DistinctTail(queue: seq<string>)
    requires queue != [] && Distinct(queue)
    ensures queue[0] !in queue[1..]
    ensures Elements(queue[1..]) == Elements(queue) - {queue[0]}
  {
    assert queue == [queue[0]] + queue[1..];
    forall i | 0 <= i < |queue[1..]| ensures queue[1..][i] != queue[0] {
      assert queue[1..][i] == queue[i + 1];
    }
  }

  lemma TrailSplit(st: State)
    requires st.queue != [] && Distinct(Trail(st))
    ensures Distinct(NodeIDs(st.steps)) && Distinct(st.queue)
    ensures forall x :: x in NodeIDs(st.steps) ==> x !in st.queue
    ensures st.queue[0] !in st.queue[1..]
    ensures Elements(st.queue[1..]) == Elements(st.queue) - {st.queue[0]}
  {
    DistinctParts(NodeIDs(st.steps), st.queue);
    DistinctTail(st.queue);
    hide NodeIDs, Distinct;
  }

  lemma HeadTidy(st: State, queued: set<string>)
    requires Tidy(st, queued) && st.queue != []
    ensures st.queue[0] !in st.executed
  {
    TrailSplit(st);
  }

  lemma DistinctAppend(a: seq<string>, b: seq<string>)
    requires Distinct(a) && Distinct(b) && forall x :: x in b ==> x !in a
    ensures Distinct(a + b)
  {
    forall i, j | 0 <= i < j < |a + b| ensures (a + b)[i] != (a + b)[j] {
      if i < |a| <= j {
        assert b[j - |a|] in b;
      }
    }
  }

  lemma NodeIDsSnoc(steps: seq<Step>, s: Step)
    ensures NodeIDs(steps + [s]) == NodeIDs(steps) + [s.nodeID]
    ensures Elements(NodeIDs(steps + [s])) == Elements(NodeIDs(steps)) + {s.nodeID}
  {
    assert s.nodeID in NodeIDs(steps) + [s.nodeID];
    assert forall x :: x in NodeIDs(steps) ==> x in NodeIDs(steps) + [s.nodeID];
  }

  /** The nodes appended when the head completes with `output`. */
  function Added(g: Graph, st: State, queued: set<string>, output: Value): seq<string>
    requires st.queue != []
  {
    var node := g.Node(st.queue[0]);
    Fresh(Next(g, node, output), st.executed + {node.id} + (queued - {st.queue[0]}))
  }

  lemma CompleteTrail(g: Graph, st: State, queued: set<string>, output: Value)
    requires g.Valid() && st.queue != [] && st.queue[0] in g.nodes
    ensures Trail(Complete(g, st, queued, output).0) == Trail(st) + Added(g, st, queued, output)
  {
    var added := Added(g, st, queued, output);
    NodeIDsSnoc(st.steps, CompletedStep(g.Node(st.queue[0]), output));
    hide Added, Fresh, Next, NodeIDs;
    assert st.queue == [st.queue[0]] + st.queue[1..];
    assert (NodeIDs(st.steps) + [st.queue[0]]) + (st.queue[1..] + added) == (NodeIDs(st.steps) + st.queue) + added;
  }

  lemma CompleteTidy(g: Graph, st: State, queued: set<string>, output: Value)
    requires g.Valid() && Tidy(st, queued) && st.queue != [] && st.queue[0] in g.nodes
    ensures Tidy(Complete(g, st, queued, output).0, Complete(g, st, queued, output).1)
    ensures st.queue[0] !in st.executed
  {
    var id := st.queue[0];
    var added := Added(g, st, queued, output);
    TrailSplit(st);
    CompleteTrail(g, st, queued, output);
    forall x | x in Trail(st) ensures x in st.executed + {id} + (queued - {id}) {
      if x !in NodeIDs(st.steps) {
        assert x in st.queue;
      }
    }
    DistinctAppend(Trail(st), added);
    NodeIDsSnoc(st.steps, CompletedStep(g.Node(id), output));
    ElementsConcat(st.queue[1..], added);
  }

  lemma TurnTidy(g: Graph, body: Body, input: Fields, st: State, queued: set<string>, decisions: seq<Value>)
    requires g.Valid() && Tidy(st, queued) && st.queue != []
    requires TakeTurn(g, st, queued, HeadResult(g, body, input, st), decisions).Go?
    ensures var turn := TakeTurn(g, st, queued, HeadResult(g, body, input, st), decisions);
            Tidy(turn.st, turn.queued)
    ensures st.queue[0] !in st.executed
  {
    hide Tidy, Complete;
    TurnDecreases(g, body, input, st, queued, decisions);
    CompleteTidy(g, st, queued, HeadOutput(g, st, HeadResult(g, body, input, st), decisions));
  }

  lemma ElementsConcat(a: seq<string>, b: seq<string>)
    ensures Elements(a + b) == Elements(a) + Elements(b)
  {
    assert forall x :: x in a + b <==> x in a || x in b;
  }

  ghost predicate RanOnce(o: Outcome) {
    && Distinct(NodeIDs(if o.Broken? && o.st.steps != [] then o.st.steps[..|o.st.steps| - 1] else o.st.steps))
    && (o.Broken? && o.nodeID != "" ==> Distinct(NodeIDs(o.st.steps)))
  }

  lemma OneMoreStep(st: State, last: Step)
    requires st.queue != [] && Distinct(Trail(st))
    requires Elements(NodeIDs(st.steps)) == st.executed
    ensures Distinct(NodeIDs(st.steps)) && (st.steps + [last])[..|st.steps|] == st.steps
    ensures last.nodeID == st.queue[0] ==> Distinct(NodeIDs(st.steps + [last]))
  {
    TrailSplit(st);
    NodeIDsSnoc(st.steps, last);
    if last.nodeID == st.queue[0] {
      assert last.nodeID !in NodeIDs(st.steps);
      DistinctAppend(NodeIDs(st.steps), [last.nodeID]);
    }
  }

  lemma StoppedRanOnce(g: Graph, st: State, queued: set<string>, result: Result<Value, string>, decisions: seq<Value>)
    requires g.Valid() && Tidy(st, queued) && st.queue != []
    requires TakeTurn(g, st, queued, result, decisions).Stop?
    ensures RanOnce(TakeTurn(g, st, queued, result, decisions).outcome)
  {
    var node := g.Node(st.queue[0]);
    if node.typ == "approval" {
      OneMoreStep(st, WaitingStep(node));
    } else {
      OneMoreStep(st, FailedStep(node, result.error));
    }
  }

  /**
   * For any graph, cyclic or not, and across any number of decisions in hand, no node of the uninterrupted run
   * has two steps. The only step that can repeat an identifier is the failing step of an edge that leads
   * nowhere, whose node reads as the zero node.
   */
  lemma {:induction false} NodesRunOnce(
    g: Graph, body: Body, input: Fields, st: State, queued: set<string>, decisions: seq<Value>)
    requires g.Valid() && Tidy(st, queued)
    ensures RanOnce(Walk(g, body, input, st, queued, decisions))
    decreases |Unvisited(g, st)|, Backlog(st.queue, st.executed)
  {
    if st.queue == [] {
      assert Trail(st) == NodeIDs(st.steps);
    } else {
      var result := HeadResult(g, body, input, st);
      match TakeTurn(g, st, queued, result, decisions)
      case Stop(outcome) =>
        StoppedRanOnce(g, st, queued, result, decisions);
      case Go(st', queued', left) =>
        TurnDecreases(g, body, input, st, queued, decisions);
        TurnTidy(g, body, input, st, queued, decisions);
        NodesRunOnce(g, body, input, st', queued', left);
    }
  }

  // The executed set as a least fixed point

  /** `s` holds the roots and is closed under the edges taken out of the nodes that have an output. */
  ghost predicate Closed(g: Graph, roots: seq<string>, outputs: Fields, s: set<string>) {
    && Elements(roots) <= s
    && forall u :: u in s && u in outputs ==> Elements(Next(g, g.Node(u), outputs[u])) <= s
  }

  /** What the worklist still owes: every taken edge ends in an executed or queued node. */
  ghost predicate Owing(g: Graph, roots: seq<string>, st: State) {
    && Elements(roots) <= st.executed + Elements(st.queue)
    && forall u :: u in st.executed && u in st.stepOutputs ==>
         Elements(Next(g, g.Node(u), st.stepOutputs[u])) <= st.executed + Elements(st.queue)
  }

  lemma CompleteOwing(g: Graph, roots: seq<string>, st: State, queued: set<string>, output: Value)
    requires g.Valid() && Tidy(st, queued) && st.queue != [] && st.queue[0] in g.nodes
    requires Owing(g, roots, st)
    ensures Owing(g, roots, Complete(g, st, queued, output).0)
  {
    TrailSplit(st);
    ElementsConcat(st.queue[1..], Added(g, st, queued, output));
  }

  lemma FinishedIsClosed(g: Graph, roots: seq<string>, st: State, queued: set<string>)
    requires Tidy(st, queued) && Owing(g, roots, st) && st.queue == []
    ensures Closed(g, roots, st.stepOutputs, st.executed) && st.executed == st.stepOutputs.Keys
  {}

  lemma {:induction false} WalkIsClosed(
    g: Graph, body: Body, input: Fields, roots: seq<string>, st: State, queued: set<string>, decisions: seq<Value>)
    requires g.Valid() && Tidy(st, queued) && Owing(g, roots, st)
    ensures var o := Walk(g, body, input, st, queued, decisions);
            o.Finished? ==> Closed(g, roots, o.st.stepOutputs, o.st.executed) && o.st.executed == o.st.stepOutputs.Keys
    decreases |Unvisited(g, st)|, Backlog(st.queue, st.executed)
  {
    hide *;
    WalkUnfolds(g, body, input, st, queued, decisions);
    if st.queue == [] {
      FinishedIsClosed(g, roots, st, queued);
    } else {
      var result := HeadResult(g, body, input, st);
      TurnShape(g, st, queued, result, decisions);
      match TakeTurn(g, st, queued, result, decisions)
      case Stop(outcome) =>
      case Go(st', queued', left) =>
        TurnDecreases(g, body, input, st, queued, decisions);
        TurnTidy(g, body, input, st, queued, decisions);
        CompleteOwing(g, roots, st, queued, HeadOutput(g, st, result, decisions));
        WalkIsClosed(g, body, input, roots, st', queued', left);
    }
  }

  /** Outputs are only ever added, never changed. */
  lemma {:induction false} WalkKeepsOutputs(
    g: Graph, body: Body, input: Fields, st: State, queued: set<string>, decisions: seq<Value>)
    requires g.Valid() && Tidy(st, queued)
    ensures Extends(st, Walk(g, body, input, st, queued, decisions).st)
    decreases |Unvisited(g, st)|, Backlog(st.queue, st.executed)
  {
    hide *;
    WalkUnfolds(g, body, input, st, queued, decisions);
    if st.queue == [] {
      TidyExtendsItself(st, queued);
    } else {
      var result := HeadResult(g, body, input, st);
      TurnShape(g, st, queued, result, decisions);
      match TakeTurn(g, st, queued, result, decisions)
      case Stop(outcome) =>
        StopExtends(g, st, queued, result, decisions);
      case Go(st', queued', left) =>
        TurnDecreases(g, body, input, st, queued, decisions);
        TurnTidy(g, body, input, st, queued, decisions);
        CompleteExtends(g, st, queued, HeadOutput(g, st, result, decisions));
        WalkKeepsOutputs(g, body, input, st', queued', left);
        ExtendsTransitive(st, st', Walk(g, body, input, st, queued, decisions).st);
    }
  }

  /** The outputs of the nodes executed in `st` are still there in `st'`. */
  ghost predicate Extends(st: State, st': State) {
    && st.executed <= st'.executed
    && forall u :: u in st.executed ==>
         u in st.stepOutputs && u in st'.stepOutputs && st'.stepOutputs[u] == st.stepOutputs[u]
  }

  lemma TidyExtendsItself(st: State, queued: set<string>)
    requires Tidy(st, queued)
    ensures Extends(st, st)
  {}

  lemma StopExtends(g: Graph, st: State, queued: set<string>, result: Result<Value, string>, decisions: seq<Value>)
    requires Tidy(st, queued) && st.queue != [] && TakeTurn(g, st, queued, result, decisions).Stop?
    ensures Extends(st, TakeTurn(g, st, queued, result, decisions).outcome.st)
  {
    hide Freeze, ApprovalRequest;
  }

  lemma ExtendsTransitive(a: State, b: State, c: State)
    requires Extends(a, b) && Extends(b, c)
    ensures Extends(a, c)
  {}

  lemma CompleteExtends(g: Graph, st: State, queued: set<string>, output: Value)
    requires g.Valid() && Tidy(st, queued) && st.queue != [] && st.queue[0] in g.nodes
    ensures Extends(st, Complete(g, st, queued, output).0)
  {
    TrailSplit(st);
  }

  /** A closed set never loses the worklist. */
  lemma {:induction false} WalkStaysWithin(
    g: Graph, body: Body, input: Fields, roots: seq<string>, st: State, queued: set<string>, decisions: seq<Value>,
    s: set<string>)
    requires g.Valid() && Tidy(st, queued)
    requires st.executed <= s && Elements(st.queue) <= s
    requires var o := Walk(g, body, input, st, queued, decisions);
             o.Finished? && Closed(g, roots, o.st.stepOutputs, s)
    ensures Walk(g, body, input, st, queued, decisions).st.executed <= s
    decreases |Unvisited(g, st)|, Backlog(st.queue, st.executed)
  {
    WalkUnfolds(g, body, input, st, queued, decisions);
    hide *;
    if st.queue != [] {
      var result := HeadResult(g, body, input, st);
      var turn := TakeTurn(g, st, queued, result, decisions);
      TurnShape(g, st, queued, result, decisions);
      TurnDecreases(g, body, input, st, queued, decisions);
      TurnTidy(g, body, input, st, queued, decisions);
      WalkKeepsOutputs(g, body, input, turn.st, turn.queued, turn.decisions);
      TurnWithin(g, roots, st, queued, HeadOutput(g, st, result, decisions),
                 Walk(g, body, input, st, queued, decisions).st, s);
      WalkStaysWithin(g, body, input, roots, turn.st, turn.queued, turn.decisions, s);
    }
  }

  lemma TurnWithin(
    g: Graph, roots: seq<string>, st: State, queued: set<string>, output: Value, end: State, s: set<string>)
    requires g.Valid() && Tidy(st, queued) && st.queue != [] && st.queue[0] in g.nodes
    requires st.executed <= s && Elements(st.queue) <= s
    requires Closed(g, roots, end.stepOutputs, s)
    requires Extends(Complete(g, st, queued, output).0, end)
    ensures var st' := Complete(g, st, queued, output).0;
            st'.executed <= s && Elements(st'.queue) <= s
  {
    var id := st.queue[0];
    assert id in Elements(st.queue);
    assert end.stepOutputs[id] == output;
    assert Elements(Next(g, g.Node(id), output)) <= s;
    TrailSplit(st);
    ElementsConcat(st.queue[1..], Added(g, st, queued, output));
  }

  /**
   * A finished uninterrupted run, with any decisions in hand, executed the least set that holds the roots and
   * is closed under the edges taken.
   */
  lemma ExecutedIsLeastClosed(
    g: Graph, body: Body, input: Fields, roots: seq<string>, decisions: seq<Value>, s: set<string>)
    requires g.Valid() && Distinct(roots)
    requires Walk(g, body, input, NewState(roots), Elements(roots), decisions).Finished?
    ensures var o := Walk(g, body, input, NewState(roots), Elements(roots), decisions);
            && Closed(g, roots, o.st.stepOutputs, o.st.executed)
            && o.st.executed == o.st.stepOutputs.Keys
            && (Closed(g, roots, o.st.stepOutputs, s) ==> o.st.executed <= s)
  {
    NewStateTidy(roots);
    WalkIsClosed(g, body, input, roots, NewState(roots), Elements(roots), decisions);
    var o := Walk(g, body, input, NewState(roots), Elements(roots), decisions);
    if Closed(g, roots, o.st.stepOutputs, s) {
      WalkStaysWithin(g, body, input, roots, NewState(roots), Elements(roots), decisions, s);
    }
  }
}
