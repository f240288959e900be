/** On a validated definition the loop is a plain breadth-first walk of a forest. */
module BreadthFirst {
  import opened Text
  import opened Values
  import opened Workflow
  import opened Graphs
  import opened Forest
  import opened Engine
  import opened Once

  /**
   * `trail` is in breadth-first order: `paths` leads to each entry, never shortens, and the entries from
   * `done` on are at most one level below the first of them.
   */
  ghost predicate Layered(d: Definition, trail: seq<string>, done: nat, paths: seq<seq<string>>) {
    && |paths| == |trail| && done <= |trail|
    && (forall j :: 0 <= j < |trail| ==> PathTo(d, paths[j], trail[j]))
    && (forall i, j :: 0 <= i <= j < |trail| ==> |paths[i]| <= |paths[j]|)
    && (done < |trail| ==> forall j :: 0 <= j < |trail| ==> |paths[j]| <= |paths[done]| + 1)
  }

  ghost predicate PathTo(d: Definition, path: seq<string>, id: string) {
    IsPath(d, path) && path[|path| - 1] == id
  }

  /** Every entry is a root or comes after the completed parent that queued it. */
  ghost predicate ParentsFirst(d: Definition, trail: seq<string>, done: nat) {
    forall j :: 0 <= j < |trail| ==> IsRoot(d, trail[j]) || ParentBefore(d, trail, done, j)
  }

  ghost predicate ParentBefore(d: Definition, trail: seq<string>, done: nat, j: nat)
    requires j < |trail|
  {
    exists i :: 0 <= i < j && i < done && Linked(d, trail[i], trail[j])
  }

  // One turn on a single-entry definition

  lemma {:induction false} EdgeTargetsDistinct(edges: seq<Edge>, id: string)
    requires forall i, j :: 0 <= i < j < |edges| ==> edges[i].to != edges[j].to
    ensures Distinct(Targets(EdgesFrom(edges, id)))
  {
    if edges != [] {
      var k := |edges| - 1;
      var front := EdgesFrom(edges[..k], id);
      EdgeTargetsDistinct(edges[..k], id);
      forall i | 0 <= i < |front| ensures front[i].to != edges[k].to {
        EdgesFromMember(edges[..k], id, front[i]);
        var j :| 0 <= j < k && edges[..k][j] == front[i];
        assert edges[j].to != edges[k].to;
      }
      assert forall i :: 0 <= i < |front| ==> Targets(front)[i] == front[i].to;
    }
  }

  ghost predicate TargetsApart(edges: seq<Edge>) {
    forall i, j :: 0 <= i < j < |edges| ==> edges[i].to != edges[j].to
  }

  lemma OneMoreApart(edges: seq<Edge>, some: seq<Edge>, last: Edge)
    requires TargetsApart(edges + [last]) && TargetsApart(some) && forall e :: e in some ==> e in edges
    ensures TargetsApart(some + [last])
  {
    var all := edges + [last];
    forall i | 0 <= i < |some| ensures some[i].to != last.to {
      assert some[i] in edges;
      var j :| 0 <= j < |edges| && edges[j] == some[i];
      assert all[j] == some[i] && all[|edges|] == last;
    }
  }

  lemma {:induction false} LabelledApart(edges: seq<Edge>, branch: string)
    requires TargetsApart(edges)
    ensures TargetsApart(Labelled(edges, branch))
  {
    if edges != [] {
      var k := |edges| - 1;
      var front, last := edges[..k], edges[k];
      assert edges == front + [last];
      assert Labelled(edges, branch)
          == Labelled(front, branch) + if EqualFold(TrimSpace(last.condition), branch) then [last] else [];
      hide Labelled, EqualFold, TrimSpace;
      LabelledApart(front, branch);
      OneMoreApart(front, Labelled(front, branch), last);
    }
  }

  lemma LabelledTargetsDistinct(edges: seq<Edge>, branch: string)
    requires Distinct(Targets(edges))
    ensures Distinct(Targets(Labelled(edges, branch)))
  {
    hide Labelled;
    assert forall i :: 0 <= i < |edges| ==> Targets(edges)[i] == edges[i].to;
    LabelledApart(edges, branch);
  }

  lemma NextDistinct(d: Definition, node: Node, output: Value)
    requires SingleEntry(d)
    ensures Distinct(Next(GraphOf(d), node, output))
  {
    OutboundIsEdgesFrom(d, node.id);
    EdgeTargetsDistinct(d.edges, node.id);
    LabelledTargetsDistinct(EdgesFrom(d.edges, node.id), BranchOf(output));
  }

  lemma NextLinked(d: Definition, node: Node, output: Value, id: string)
    requires id in Next(GraphOf(d), node, output)
    ensures Linked(d, node.id, id)
  {
    var taken := Taken(GraphOf(d), node, output);
    var i :| 0 <= i < |taken| && taken[i].to == id;
    TakenIsEdge(d, node, output, taken[i]);
  }

  lemma {:induction false} FreshKeepsAll(next: seq<string>, blocked: set<string>)
    requires Distinct(next) && forall x :: x in next ==> x !in blocked
    ensures Fresh(next, blocked) == next
  {
    if next != [] {
      assert next == [next[0]] + next[1..];
      assert forall i :: 1 <= i < |next| ==> next[i] != next[0];
      FreshKeepsAll(next[1..], blocked + {next[0]});
    }
  }

  /** A successor of the head has not been executed and is not queued. */
  lemma SuccessorIsNew(d: Definition, trail: seq<string>, done: nat, id: string)
    requires SingleEntry(d) && Distinct(trail) && ParentsFirst(d, trail, done) && done < |trail|
    requires Linked(d, trail[done], id)
    ensures id !in trail
  {
    RootNotEntered(d, trail[done], id);
    forall j | 0 <= j < |trail| ensures trail[j] != id {
      if trail[j] == id && ParentBefore(d, trail, done, j) {
        var i :| 0 <= i < j && i < done && Linked(d, trail[i], trail[j]);
        assert trail[i] != trail[done];
        OneParent(d, trail[i], trail[done], id);
        assert false;
      }
    }
  }

  /** The run so far, on a validated definition. */
  ghost predicate OnForest(d: Definition, st: State, queued: set<string>) {
    && Tidy(st, queued)
    && ParentsFirst(d, Trail(st), |st.steps|)
  }

  /** The "already executed or queued" test never skips anything, when the head completes or pauses. */
  lemma NothingSkipped(d: Definition, st: State, queued: set<string>, output: Value)
    requires SingleEntry(d) && OnForest(d, st, queued) && st.queue != [] && st.queue[0] in GraphOf(d).nodes
    ensures var g := GraphOf(d);
            var node := g.Node(st.queue[0]);
            && Added(g, st, queued, output) == Next(g, node, output)
            && Fresh(Next(g, node, output), st.executed + Elements(st.queue[1..])) == Next(g, node, output)
            && (forall x :: x in Next(g, node, output) ==> x !in Trail(st))
  {
    var g := GraphOf(d);
    var node := g.Node(st.queue[0]);
    var next := Next(g, node, output);
    assert Trail(st)[|st.steps|] == st.queue[0] == node.id;
    forall x | x in next ensures x !in Trail(st) {
      NextLinked(d, node, output, x);
      SuccessorIsNew(d, Trail(st), |st.steps|, x);
    }
    NextDistinct(d, node, output);
    NotInTrail(st, queued, next);
    FreshKeepsAll(next, st.executed + {node.id} + (queued - {st.queue[0]}));
    FreshKeepsAll(next, st.executed + Elements(st.queue[1..]));
  }

  lemma NotInTrail(st: State, queued: set<string>, next: seq<string>)
    requires Tidy(st, queued) && st.queue != []
    requires forall x :: x in next ==> x !in Trail(st)
    ensures forall x :: x in next ==> x !in st.executed && x !in queued && x != st.queue[0]
    ensures forall x :: x in next ==> x !in Elements(st.queue[1..])
  {
    forall x | x in next ensures x !in st.executed && x !in queued && x != st.queue[0] {
      assert forall y :: y in NodeIDs(st.steps) || y in st.queue ==> y in Trail(st);
    }
    assert forall y :: y in st.queue[1..] ==> y in st.queue;
  }

  // The walk without the bookkeeping

  function PlainComplete(g: Graph, st: State, output: Value): State
    requires st.queue != []
  {
    var node := g.Node(st.queue[0]);
    State(
      st.steps + [CompletedStep(node, output)],
      st.stepOutputs[node.id := output],
      node.id,
      st.queue[1..] + Next(g, node, output),
      st.executed + {node.id})
  }

  function PlainTurn(g: Graph, st: State, result: Result<Value, string>, decisions: seq<Value>): Turn
    requires st.queue != []
  {
    var node := g.Node(st.queue[0]);
    var rest := st.queue[1..];
    if node.typ == "approval" then
      if decisions == [] then
        Stop(Paused(Wait(g, st), ApprovalRequest(node),
                    Pending(node.id, rest + Next(g, node, ApprovalRequest(node)), st.stepOutputs, st.executed)))
      else Go(PlainComplete(g, st, decisions[0]), {}, decisions[1..])
    else
      match result
      case Err(e) => Stop(Broken(Break(g, st, e), node.id, e))
      case Ok(output) => Go(PlainComplete(g, st, output), {}, decisions)
  }

  /** At most `turns` turns of a walk that appends every successor without looking at what ran or is queued. */
  function PlainWalk(g: Graph, body: Body, input: Fields, st: State, decisions: seq<Value>, turns: nat): Option<Outcome>
    decreases turns
  {
    if st.queue == [] then Some(Finished(st))
    else if turns == 0 then None
    else
      match PlainTurn(g, st, HeadResult(g, body, input, st), decisions)
      case Stop(outcome) => Some(outcome)
      case Go(st', _, left) => PlainWalk(g, body, input, st', left, turns - 1)
  }

  lemma PlainTurnSame(
    d: Definition, st: State, queued: set<string>, result: Result<Value, string>, decisions: seq<Value>)
    requires SingleEntry(d) && OnForest(d, st, queued) && st.queue != [] && st.queue[0] in GraphOf(d).nodes
    ensures var turn := TakeTurn(GraphOf(d), st, queued, result, decisions);
            var plain := PlainTurn(GraphOf(d), st, result, decisions);
            if turn.Stop? then plain == turn else plain.Go? && plain.st == turn.st && plain.decisions == turn.decisions
  {
    hide OnForest, Next, Fresh, SingleEntry;
    NothingSkipped(d, st, queued, ApprovalRequest(GraphOf(d).Node(st.queue[0])));
    if decisions != [] {
      NothingSkipped(d, st, queued, decisions[0]);
    }
    if result.Ok? {
      NothingSkipped(d, st, queued, result.value);
    }
  }

  // What a turn keeps

  lemma CompleteOnForest(d: Definition, st: State, queued: set<string>, output: Value)
    requires SingleEntry(d) && OnForest(d, st, queued) && st.queue != [] && st.queue[0] in GraphOf(d).nodes
    ensures var (st', queued') := Complete(GraphOf(d), st, queued, output);
            OnForest(d, st', queued')
  {
    var g := GraphOf(d);
    var node := g.Node(st.queue[0]);
    var next := Next(g, node, output);
    var st' := Complete(g, st, queued, output).0;
    CompleteTidy(g, st, queued, output);
    NothingSkipped(d, st, queued, output);
    CompleteTrail(g, st, queued, output);
    var t, t', n := Trail(st), Trail(st'), |st.steps|;
    assert t' == t + next && t[n] == node.id;
    forall j | 0 <= j < |t'| ensures IsRoot(d, t'[j]) || ParentBefore(d, t', n + 1, j) {
      if j < |t| {
        if !IsRoot(d, t[j]) {
          var i :| 0 <= i < j && i < n && Linked(d, t[i], t[j]);
          assert Linked(d, t'[i], t'[j]);
        }
      } else {
        NextLinked(d, node, output, t'[j]);
        assert Linked(d, t'[n], t'[j]);
      }
    }
  }

  lemma CompleteLayered(d: Definition, st: State, queued: set<string>, output: Value, paths: seq<seq<string>>)
    returns (paths': seq<seq<string>>)
    requires SingleEntry(d) && OnForest(d, st, queued) && st.queue != [] && st.queue[0] in GraphOf(d).nodes
    requires Layered(d, Trail(st), |st.steps|, paths)
    ensures var st' := Complete(GraphOf(d), st, queued, output).0;
            Layered(d, Trail(st'), |st'.steps|, paths')
  {
    var g := GraphOf(d);
    var node := g.Node(st.queue[0]);
    var next := Next(g, node, output);
    var st' := Complete(g, st, queued, output).0;
    NothingSkipped(d, st, queued, output);
    CompleteTrail(g, st, queued, output);
    var n := |st.steps|;
    assert Trail(st') == Trail(st) + next && Trail(st)[n] == node.id;
    forall i | 0 <= i < |next| ensures PathTo(d, paths[n] + [next[i]], next[i]) {
      NextLinked(d, node, output, next[i]);
      PathExtends(d, paths[n], node.id, next[i]);
    }
    paths' := LayerBelow(d, Trail(st), n, paths, next);
  }

  lemma PathExtends(d: Definition, path: seq<string>, id: string, child: string)
    requires PathTo(d, path, id) && Linked(d, id, child)
    ensures PathTo(d, path + [child], child)
  {
    var longer := path + [child];
    forall i | 0 <= i < |longer| - 1 ensures Linked(d, longer[i], longer[i + 1]) {
      if i < |path| - 1 {
        assert Linked(d, path[i], path[i + 1]);
      }
    }
  }

  lemma LayerBelow(d: Definition, trail: seq<string>, n: nat, paths: seq<seq<string>>, next: seq<string>)
    returns (paths': seq<seq<string>>)
    requires Layered(d, trail, n, paths) && n < |trail|
    requires forall i :: 0 <= i < |next| ==> PathTo(d, paths[n] + [next[i]], next[i])
    ensures Layered(d, trail + next, n + 1, paths')
  {
    hide IsPath;
    paths' := paths + seq(|next|, i requires 0 <= i < |next| => paths[n] + [next[i]]);
    assert forall j :: 0 <= j < |paths'| ==> |paths'[j]| <= |paths[n]| + 1;
    assert forall j :: n <= j < |paths'| ==> |paths[n]| <= |paths'[j]|;
  }

  lemma PrefixLayered(d: Definition, t: seq<string>, n: nat, paths: seq<seq<string>>)
    requires Layered(d, t, n, paths) && n < |t|
    ensures Layered(d, t[..n + 1], n + 1, paths[..n + 1])
  {
    hide PathTo;
  }

  lemma PrefixParentsFirst(d: Definition, t: seq<string>, n: nat)
    requires ParentsFirst(d, t, n) && n < |t|
    ensures ParentsFirst(d, t[..n + 1], n + 1)
  {
    hide Linked, IsRoot;
    var t' := t[..n + 1];
    forall j | 0 <= j < |t'| ensures IsRoot(d, t'[j]) || ParentBefore(d, t', n + 1, j) {
      if !IsRoot(d, t[j]) {
        var i :| 0 <= i < j && i < n && Linked(d, t[i], t[j]);
        assert Linked(d, t'[i], t'[j]);
      }
    }
  }

  lemma LastOfTrail(st: State, last: Step)
    requires st.queue != [] && last.nodeID == st.queue[0]
    ensures |st.steps| < |Trail(st)| && NodeIDs(st.steps + [last]) == Trail(st)[..|st.steps| + 1]
  {}

  lemma OnForestParents(d: Definition, st: State, queued: set<string>)
    requires OnForest(d, st, queued)
    ensures ParentsFirst(d, Trail(st), |st.steps|)
  {
    hide ParentsFirst;
  }

  lemma StopLayered(d: Definition, st: State, queued: set<string>, last: Step, paths: seq<seq<string>>)
    requires OnForest(d, st, queued) && st.queue != [] && last.nodeID == st.queue[0]
    requires Layered(d, Trail(st), |st.steps|, paths)
    ensures BreadthFirstSteps(d, st.steps + [last])
  {
    OnForestParents(d, st, queued);
    LastOfTrail(st, last);
    PrefixLayered(d, Trail(st), |st.steps|, paths);
    PrefixParentsFirst(d, Trail(st), |st.steps|);
    hide OnForest, Layered, ParentsFirst, Trail, NodeIDs;
  }

  // Whole runs

  /** What validation of trimmed identifiers gives the engine: no merges, and no edge out of the definition. */
  ghost predicate ForestDefinition(d: Definition) {
    && SingleEntry(d)
    && (forall e :: e in d.edges ==> e.to in GraphOf(d).nodes)
  }

  lemma AcceptedForest(d: Definition, httpToolOK: Fields -> bool)
    requires Accepted(d, httpToolOK) && TrimmedDefinition(d)
    ensures ForestDefinition(d)
  {
    AcceptedSingleEntry(d, httpToolOK);
    forall e | e in d.edges ensures e.to in GraphOf(d).nodes {
      assert EdgeAccepted(e, TrimmedIDs(d.nodes));
      EdgeTargetKnown(d, e);
    }
  }

  /** The worklist never holds an unknown node. */
  lemma HeadKnown(d: Definition, st: State, queued: set<string>)
    requires ForestDefinition(d) && OnForest(d, st, queued) && st.queue != []
    ensures st.queue[0] in GraphOf(d).nodes && st.queue[0] in Unvisited(GraphOf(d), st)
  {
    var n := |st.steps|;
    TrailSplit(st);
    assert Trail(st)[n] == st.queue[0];
    if !IsRoot(d, st.queue[0]) {
      assert ParentBefore(d, Trail(st), n, n);
    }
  }

  /** Each root is the end of the path that holds nothing else. */
  function RootPaths(roots: seq<string>): seq<seq<string>> {
    seq(|roots|, i requires 0 <= i < |roots| => [roots[i]])
  }

  lemma StartOnForest(d: Definition, httpToolOK: Fields -> bool)
    requires Accepted(d, httpToolOK)
    ensures var st := NewState(GraphOf(d).roots);
            && OnForest(d, st, Elements(st.queue))
            && Layered(d, Trail(st), 0, RootPaths(st.queue))
  {
    AcceptedRootsDistinct(d.nodes, d.edges, httpToolOK);
    RootsOnForest(d);
  }

  lemma RootsOnForest(d: Definition)
    requires Distinct(Roots(d.nodes, d.edges))
    ensures var st := NewState(GraphOf(d).roots);
            && OnForest(d, st, Elements(st.queue))
            && Layered(d, Trail(st), 0, RootPaths(st.queue))
  {
    var st := NewState(GraphOf(d).roots);
    NewStateTidy(st.queue);
    assert Trail(st) == st.queue;
    hide Tidy, Roots, Trail, OnForest;
    RootsLayered(d, st.queue);
    RootsStart(d, st);
  }

  lemma RootsLayered(d: Definition, roots: seq<string>)
    requires forall i :: 0 <= i < |roots| ==> IsRoot(d, roots[i])
    ensures Layered(d, roots, 0, RootPaths(roots))
  {
    hide IsRoot, Linked;
    forall i | 0 <= i < |roots| ensures PathTo(d, [roots[i]], roots[i]) {
    }
  }

  lemma RootsStart(d: Definition, st: State)
    requires Tidy(st, Elements(st.queue)) && st.steps == [] && Trail(st) == st.queue
    requires forall i :: 0 <= i < |st.queue| ==> IsRoot(d, st.queue[i])
    ensures OnForest(d, st, Elements(st.queue))
  {
    hide Tidy, Trail, IsRoot, Linked;
  }

  /** The worklist refines the walk that keeps no books, which ends within one turn per unvisited node. */
  lemma {:induction false} WalkIsPlain(
    d: Definition, body: Body, input: Fields, st: State, queued: set<string>, decisions: seq<Value>, turns: nat)
    requires ForestDefinition(d) && OnForest(d, st, queued) && turns >= |Unvisited(GraphOf(d), st)|
    ensures PlainWalk(GraphOf(d), body, input, st, decisions, turns)
            == Some(Walk(GraphOf(d), body, input, st, queued, decisions))
    decreases turns
  {
    hide OnForest, TakeTurn, PlainTurn, SingleEntry, Unvisited, HeadResult, GraphOf;
    var g := GraphOf(d);
    if st.queue != [] {
      HeadKnown(d, st, queued);
      var result := HeadResult(g, body, input, st);
      PlainTurnSame(d, st, queued, result, decisions);
      match TakeTurn(g, st, queued, result, decisions)
      case Stop(outcome) =>
      case Go(st', queued', left) =>
        TurnVisits(d, body, input, st, queued, decisions);
        WalkIsPlain(d, body, input, st', queued', left, turns - 1);
    }
  }

  /** A turn that goes on visits its head and stays on the forest. */
  lemma TurnVisits(d: Definition, body: Body, input: Fields, st: State, queued: set<string>, decisions: seq<Value>)
    requires ForestDefinition(d) && OnForest(d, st, queued) && st.queue != []
    requires TakeTurn(GraphOf(d), st, queued, HeadResult(GraphOf(d), body, input, st), decisions).Go?
    ensures var turn := TakeTurn(GraphOf(d), st, queued, HeadResult(GraphOf(d), body, input, st), decisions);
            && OnForest(d, turn.st, turn.queued)
            && |Unvisited(GraphOf(d), turn.st)| < |Unvisited(GraphOf(d), st)|
  {
    assert SingleEntry(d);
    hide OnForest, SingleEntry, GraphOf, TakeTurn, HeadResult, HeadOutput, Complete;
    var g, result := GraphOf(d), HeadResult(GraphOf(d), body, input, st);
    TurnShape(g, st, queued, result, decisions);
    HeadKnown(d, st, queued);
    CompleteOnForest(d, st, queued, HeadOutput(g, st, result, decisions));
    CompleteVisits(g, st, queued, HeadOutput(g, st, result, decisions));
  }

  lemma CompleteVisits(g: Graph, st: State, queued: set<string>, output: Value)
    requires g.Valid() && st.queue != [] && st.queue[0] in g.nodes && st.queue[0] !in st.executed
    ensures |Unvisited(g, Complete(g, st, queued, output).0)| < |Unvisited(g, st)|
  {
    hide Fresh, Next;
    assert Unvisited(g, Complete(g, st, queued, output).0) == Unvisited(g, st) - {st.queue[0]};
  }

  /** The steps of a run, however it ended, are in breadth-first order and parents come first. */
  ghost predicate BreadthFirstSteps(d: Definition, steps: seq<Step>) {
    && (exists paths :: Layered(d, NodeIDs(steps), |steps|, paths))
    && ParentsFirst(d, NodeIDs(steps), |steps|)
  }

  lemma {:induction false} WalkBreadthFirst(
    d: Definition, body: Body, input: Fields, st: State, queued: set<string>, decisions: seq<Value>,
    paths: seq<seq<string>>)
    requires ForestDefinition(d) && OnForest(d, st, queued) && Layered(d, Trail(st), |st.steps|, paths)
    ensures BreadthFirstSteps(d, Walk(GraphOf(d), body, input, st, queued, decisions).st.steps)
    decreases |Unvisited(GraphOf(d), st)|
  {
    hide OnForest, TakeTurn, SingleEntry, Layered, BreadthFirstSteps, Unvisited, HeadResult, GraphOf;
    var g := GraphOf(d);
    if st.queue == [] {
      FinishedBreadthFirst(d, st, queued, paths);
    } else {
      HeadKnown(d, st, queued);
      match TakeTurn(g, st, queued, HeadResult(g, body, input, st), decisions)
      case Stop(outcome) =>
        StopBreadthFirst(d, st, queued, HeadResult(g, body, input, st), decisions, paths);
      case Go(st', queued', left) =>
        var paths' := TurnLayered(d, body, input, st, queued, decisions, paths);
        TurnVisits(d, body, input, st, queued, decisions);
        WalkBreadthFirst(d, body, input, st', queued', left, paths');
    }
  }

  lemma StopBreadthFirst(
    d: Definition, st: State, queued: set<string>, result: Result<Value, string>, decisions: seq<Value>,
    paths: seq<seq<string>>)
    requires OnForest(d, st, queued) && st.queue != [] && st.queue[0] in GraphOf(d).nodes
    requires Layered(d, Trail(st), |st.steps|, paths)
    requires TakeTurn(GraphOf(d), st, queued, result, decisions).Stop?
    ensures BreadthFirstSteps(d, TakeTurn(GraphOf(d), st, queued, result, decisions).outcome.st.steps)
  {
    hide OnForest, Layered, BreadthFirstSteps, Freeze;
    var node := GraphOf(d).Node(st.queue[0]);
    var last := if node.typ == "approval" then WaitingStep(node) else FailedStep(node, result.error);
    var steps := st.steps + [last];
    StopLayered(d, st, queued, last, paths);
    assert TakeTurn(GraphOf(d), st, queued, result, decisions).outcome.st.steps == steps;
  }

  lemma TurnLayered(
    d: Definition, body: Body, input: Fields, st: State, queued: set<string>, decisions: seq<Value>,
    paths: seq<seq<string>>) returns (paths': seq<seq<string>>)
    requires ForestDefinition(d) && OnForest(d, st, queued) && st.queue != []
    requires Layered(d, Trail(st), |st.steps|, paths)
    requires TakeTurn(GraphOf(d), st, queued, HeadResult(GraphOf(d), body, input, st), decisions).Go?
    ensures var turn := TakeTurn(GraphOf(d), st, queued, HeadResult(GraphOf(d), body, input, st), decisions);
            Layered(d, Trail(turn.st), |turn.st.steps|, paths')
  {
    hide OnForest, Layered, SingleEntry, Complete;
    var g := GraphOf(d);
    HeadKnown(d, st, queued);
    paths' := CompleteLayered(d, st, queued, HeadOutput(g, st, HeadResult(g, body, input, st), decisions), paths);
  }

  lemma FinishedBreadthFirst(d: Definition, st: State, queued: set<string>, paths: seq<seq<string>>)
    requires OnForest(d, st, queued) && Layered(d, Trail(st), |st.steps|, paths) && st.queue == []
    ensures BreadthFirstSteps(d, st.steps)
  {
    assert Trail(st) == NodeIDs(st.steps);
  }

  /** Depth, read off any paths to the two nodes, never decreases from one step to a later one. */
  lemma DepthsNeverDecrease(d: Definition, steps: seq<Step>, i: nat, j: nat, p: seq<string>, q: seq<string>)
    requires SingleEntry(d) && BreadthFirstSteps(d, steps) && i <= j < |steps|
    requires PathTo(d, p, steps[i].nodeID) && PathTo(d, q, steps[j].nodeID)
    ensures |p| <= |q|
  {
    var paths :| Layered(d, NodeIDs(steps), |steps|, paths);
    PathsUnique(d, p, paths[i]);
    PathsUnique(d, q, paths[j]);
  }

  /**
   * Every uninterrupted run of an accepted definition with trimmed identifiers, whatever its decisions, is the
   * plain walk over a forest, in breadth-first order, with no node run before its parent.
   */
  lemma AcceptedRunIsBreadthFirst(
    d: Definition, httpToolOK: Fields -> bool, body: Body, input: Fields, decisions: seq<Value>)
    requires Accepted(d, httpToolOK) && TrimmedDefinition(d)
    ensures var g := GraphOf(d);
            var o := Walk(g, body, input, NewState(g.roots), Elements(g.roots), decisions);
            && PlainWalk(g, body, input, NewState(g.roots), decisions, |g.nodes|) == Some(o)
            && BreadthFirstSteps(d, o.st.steps)
  {
    hide Accepted, TrimmedDefinition, Walk, PlainWalk, OnForest, Layered, BreadthFirstSteps;
    var g := GraphOf(d);
    var st := NewState(g.roots);
    AcceptedForest(d, httpToolOK);
    StartOnForest(d, httpToolOK);
    assert Unvisited(g, st) == g.nodes.Keys;
    assert |g.nodes.Keys| == |g.nodes|;
    WalkIsPlain(d, body, input, st, Elements(g.roots), decisions, |g.nodes|);
    WalkBreadthFirst(d, body, input, st, Elements(g.roots), decisions,
                     RootPaths(st.queue));
  }
}
