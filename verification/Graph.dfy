/** The executable graph built from a definition (`internal/executor/graph.go`). */
module Graphs {
  import opened Text
  import opened Values
  import opened Workflow

  datatype Graph = Graph(nodes: map<string, Node>, outbound: map<string, seq<Edge>>, roots: seq<string>)
  {
    /** A node that is not in the map reads as the zero node, as in Go. */
    function Node(id: string): Node {
      if id in nodes then nodes[id] else Workflow.Node("", "", map[])
    }

    function Outbound(id: string): seq<Edge> {
      if id in outbound then outbound[id] else []
    }

    ghost predicate Valid() {
      forall id :: id in nodes ==> nodes[id].id == id
    }
  }

  // What the loops of buildGraph leave behind

  /** Later nodes shadow earlier ones with the same identifier. */
  function NodesByID(nodes: seq<Node>): (m: map<string, Node>)
    ensures forall id :: id in m ==> m[id].id == id && m[id] in nodes
    ensures forall n :: n in nodes ==> n.id in m
  {
    if nodes == [] then map[]
    else
      var last := nodes[|nodes| - 1];
      assert nodes == nodes[..|nodes| - 1] + [last];
      NodesByID(nodes[..|nodes| - 1])[last.id := last]
  }

  /** The edges that leave `id`, in definition order. */
  function EdgesFrom(edges: seq<Edge>, id: string): seq<Edge> {
    if edges == [] then []
    else
      var last := edges[|edges| - 1];
      EdgesFrom(edges[..|edges| - 1], id) + if last.from == id then [last] else []
  }

  lemma {:induction false} EdgesFromMember(edges: seq<Edge>, id: string, e: Edge)
    ensures e in EdgesFrom(edges, id) <==> e in edges && e.from == id
  {
    if edges != [] {
      assert edges == edges[..|edges| - 1] + [edges[|edges| - 1]];
      EdgesFromMember(edges[..|edges| - 1], id, e);
    }
  }

  lemma {:induction false} EdgesFromNowhere(edges: seq<Edge>, id: string)
    requires id !in Sources(edges)
    ensures EdgesFrom(edges, id) == []
  {
    if edges != [] {
      assert edges[|edges| - 1].from in Sources(edges);
      assert Sources(edges[..|edges| - 1]) <= Sources(edges);
      EdgesFromNowhere(edges[..|edges| - 1], id);
    }
  }

  function Sources(edges: seq<Edge>): set<string> {
    set e | e in edges :: e.from
  }

  function OutboundIndex(edges: seq<Edge>): map<string, seq<Edge>> {
    map id | id in Sources(edges) :: EdgesFrom(edges, id)
  }

  lemma OutboundSnoc(edges: seq<Edge>, e: Edge)
    ensures OutboundIndex(edges + [e]) == OutboundIndex(edges)[e.from := EdgesFrom(edges, e.from) + [e]]
  {
    SourcesSnoc(edges, e);
    forall id | id in Sources(edges + [e])
      ensures EdgesFrom(edges + [e], id) ==
              if id == e.from then EdgesFrom(edges, id) + [e] else EdgesFrom(edges, id)
    {
      EdgesFromSnoc(edges, e, id);
    }
  }

  lemma SourcesSnoc(edges: seq<Edge>, e: Edge)
    ensures Sources(edges + [e]) == Sources(edges) + {e.from}
  {
    forall x | x in edges + [e] ensures x.from in Sources(edges) + {e.from} {}
    assert e in edges + [e];
    assert forall x :: x in edges ==> x in edges + [e];
  }

  lemma EdgesFromSnoc(edges: seq<Edge>, e: Edge, id: string)
    ensures EdgesFrom(edges + [e], id) == EdgesFrom(edges, id) + if id == e.from then [e] else []
  {
    assert (edges + [e])[..|edges|] == edges;
  }

  /** The identifiers of the nodes no edge points at, in definition order. */
  function Roots(nodes: seq<Node>, edges: seq<Edge>): (r: seq<string>)
    ensures forall id :: id in r <==> (exists n :: n in nodes && n.id == id) && Count(edges, Into(id)) == 0
  {
    if nodes == [] then []
    else
      var last := nodes[|nodes| - 1];
      assert nodes == nodes[..|nodes| - 1] + [last];
      Roots(nodes[..|nodes| - 1], edges) + if Count(edges, Into(last.id)) == 0 then [last.id] else []
  }

  function GraphOf(d: Definition): (g: Graph)
    ensures g.Valid()
  {
    Graph(
      NodesByID(d.nodes),
      OutboundIndex(d.edges),
      Roots(d.nodes, d.edges))
  }

  lemma OutboundIsEdgesFrom(d: Definition, id: string)
    ensures GraphOf(d).Outbound(id) == EdgesFrom(d.edges, id)
  {
    if id !in Sources(d.edges) {
      EdgesFromNowhere(d.edges, id);
    }
  }

  // The graph said of the definition itself: which nodes, edges and roots it holds, and in which order

  /** All the edges that satisfy `p`, and only they, each at the place its predecessors leave it. */
  ghost predicate Selects(found: seq<Edge>, edges: seq<Edge>, p: Edge -> bool) {
    && |found| == Count(edges, p)
    && forall i :: 0 <= i < |edges| && p(edges[i]) ==>
         Count(edges[..i], p) < |found| && found[Count(edges[..i], p)] == edges[i]
  }

  function From(id: string): Edge -> bool { (e: Edge) => e.from == id }

  lemma SelectsSnoc(found: seq<Edge>, edges: seq<Edge>, p: Edge -> bool)
    requires edges != [] && Selects(found, edges[..|edges| - 1], p)
    ensures var last := edges[|edges| - 1];
            Selects(found + if p(last) then [last] else [], edges, p)
  {
    var k := |edges| - 1;
    assert forall i :: 0 <= i < k ==> edges[..k][..i] == edges[..i];
  }

  lemma {:induction false} EdgesFromInOrder(edges: seq<Edge>, id: string)
    ensures Selects(EdgesFrom(edges, id), edges, From(id))
  {
    if edges != [] {
      EdgesFromInOrder(edges[..|edges| - 1], id);
      SelectsSnoc(EdgesFrom(edges[..|edges| - 1], id), edges, From(id));
    }
  }

  /** The node an identifier stands for is the last one that has it. */
  ghost predicate LastOfID(nodes: seq<Node>, id: string, n: Node) {
    exists k :: 0 <= k < |nodes| && nodes[k] == n && n.id == id && forall j :: k < j < |nodes| ==> nodes[j].id != id
  }

  lemma LastOfIDSnoc(nodes: seq<Node>, id: string, n: Node, last: Node)
    ensures last.id == id ==> LastOfID(nodes + [last], id, last)
    ensures last.id != id && LastOfID(nodes, id, n) ==> LastOfID(nodes + [last], id, n)
  {
    var all := nodes + [last];
    assert all[|nodes|] == last;
    if last.id != id && LastOfID(nodes, id, n) {
      var k :| 0 <= k < |nodes| && nodes[k] == n && n.id == id && forall j :: k < j < |nodes| ==> nodes[j].id != id;
      assert all[k] == n;
    }
  }

  lemma NodesByIDSnoc(front: seq<Node>, last: Node)
    ensures NodesByID(front + [last]) == NodesByID(front)[last.id := last]
  {
    assert (front + [last])[..|front|] == front;
  }

  lemma {:induction false} NodesByIDLast(nodes: seq<Node>, id: string)
    requires id in NodesByID(nodes)
    ensures LastOfID(nodes, id, NodesByID(nodes)[id])
  {
    assert nodes != [];
    var k := |nodes| - 1;
    assert nodes[..k] + [nodes[k]] == nodes;
    NodesByIDSnoc(nodes[..k], nodes[k]);
    hide *;
    LastOfIDSnoc(nodes[..k], id, NodesByID(nodes)[id], nodes[k]);
    if nodes[k].id != id {
      NodesByIDLast(nodes[..k], id);
    }
  }

  ghost predicate Entered(edges: seq<Edge>, id: string) {
    exists e :: e in edges && e.to == id
  }

  ghost predicate Precedes(s: seq<string>, x: string, y: string) {
    exists a, b :: 0 <= a < b < |s| && s[a] == x && s[b] == y
  }

  lemma PrecedesLater(s: seq<string>, more: seq<string>, x: string, y: string)
    requires Precedes(s, x, y)
    ensures Precedes(s + more, x, y)
  {
    var a, b :| 0 <= a < b < |s| && s[a] == x && s[b] == y;
    assert (s + more)[a] == x && (s + more)[b] == y;
  }

  lemma {:induction false} RootsInOrder(nodes: seq<Node>, edges: seq<Edge>, i: nat, j: nat)
    requires i < j < |nodes| && !Entered(edges, nodes[i].id) && !Entered(edges, nodes[j].id)
    ensures Precedes(Roots(nodes, edges), nodes[i].id, nodes[j].id)
  {
    var k := |nodes| - 1;
    var front := Roots(nodes[..k], edges);
    assert nodes == nodes[..k] + [nodes[k]];
    RootsSnoc(nodes[..k], edges, nodes[k]);
    CountFinds(edges, Into(nodes[i].id));
    CountFinds(edges, Into(nodes[j].id));
    hide Count;
    if j < k {
      RootsInOrder(nodes[..k], edges, i, j);
      PrecedesLater(front, Roots(nodes, edges)[|front|..], nodes[i].id, nodes[j].id);
      assert front + Roots(nodes, edges)[|front|..] == Roots(nodes, edges);
    } else {
      assert nodes[..k][i] == nodes[i] && nodes[i].id in front;
      var a :| 0 <= a < |front| && front[a] == nodes[i].id;
      assert Roots(nodes, edges)[a] == nodes[i].id && Roots(nodes, edges)[|front|] == nodes[j].id;
    }
  }

  /** What the graph holds: the last node of each identifier, every node's edges in order, the unentered nodes. */
  ghost predicate Describes(g: Graph, d: Definition) {
    && (forall id :: id in g.nodes <==> exists n :: n in d.nodes && n.id == id)
    && (forall id :: id in g.nodes ==> LastOfID(d.nodes, id, g.nodes[id]))
    && (forall id :: Selects(if id in g.outbound then g.outbound[id] else [], d.edges, From(id)))
    && (forall id :: id in g.roots <==> (exists n :: n in d.nodes && n.id == id) && !Entered(d.edges, id))
    && (forall i, j :: 0 <= i < j < |d.nodes| && !Entered(d.edges, d.nodes[i].id) && !Entered(d.edges, d.nodes[j].id)
          ==> Precedes(g.roots, d.nodes[i].id, d.nodes[j].id))
  }

  lemma GraphDescribes(d: Definition)
    ensures Describes(GraphOf(d), d)
  {
    var g := GraphOf(d);
    forall id ensures Selects(if id in g.outbound then g.outbound[id] else [], d.edges, From(id)) {
      OutboundIsEdgesFrom(d, id);
      EdgesFromInOrder(d.edges, id);
    }
    forall id ensures Entered(d.edges, id) <==> Count(d.edges, Into(id)) != 0 {
      CountFinds(d.edges, Into(id));
    }
    forall id | id in g.nodes ensures LastOfID(d.nodes, id, g.nodes[id]) {
      NodesByIDLast(d.nodes, id);
    }
    hide Entered, Selects, LastOfID, Precedes, Count;
    forall i, j | 0 <= i < j < |d.nodes| && !Entered(d.edges, d.nodes[i].id) && !Entered(d.edges, d.nodes[j].id)
      ensures Precedes(g.roots, d.nodes[i].id, d.nodes[j].id)
    {
      RootsInOrder(d.nodes, d.edges, i, j);
    }
  }

  lemma BuildsIff(d: Definition)
    ensures Roots(d.nodes, d.edges) == [] <==> forall n :: n in d.nodes ==> Entered(d.edges, n.id)
  {
    forall id ensures Entered(d.edges, id) <==> Count(d.edges, Into(id)) != 0 {
      CountFinds(d.edges, Into(id));
    }
    hide Count, Entered;
    if Roots(d.nodes, d.edges) != [] {
      assert Roots(d.nodes, d.edges)[0] in Roots(d.nodes, d.edges);
    }
  }

  method BuildGraph(d: Definition) returns (r: Result<Graph, string>)
    ensures r == if Roots(d.nodes, d.edges) == [] then Err("workflow contains a cycle and cannot be executed")
                 else Ok(GraphOf(d))
    ensures r.Err? <==> forall n :: n in d.nodes ==> Entered(d.edges, n.id)
    ensures r.Ok? ==> Describes(r.value, d)
  {
    BuildsIff(d);
    GraphDescribes(d);
    hide Describes, Entered;
    var nodeByID, inDegree := IndexNodes(d.nodes);
    var outbound;
    outbound, inDegree := IndexEdges(d.edges, inDegree);
    var roots := CollectRoots(d, inDegree);
    if |roots| == 0 {
      return Err("workflow contains a cycle and cannot be executed");
    }
    return Ok(Graph(nodeByID, outbound, roots));
  }

  method IndexNodes(nodes: seq<Node>) returns (nodeByID: map<string, Node>, inDegree: map<string, int>)
    ensures nodeByID == NodesByID(nodes)
    ensures forall id :: id in inDegree ==> inDegree[id] == 0
  {
    nodeByID, inDegree := map[], map[];
    for i := 0 to |nodes|
      invariant nodeByID == NodesByID(nodes[..i])
      invariant forall id :: id in inDegree ==> inDegree[id] == 0
    {
      assert nodes[..i + 1][..i] == nodes[..i];
      nodeByID := nodeByID[nodes[i].id := nodes[i]];
      inDegree := inDegree[nodes[i].id := 0];
    }
    assert nodes[..|nodes|] == nodes;
  }

  method IndexEdges(edges: seq<Edge>, zero: map<string, int>)
    returns (outbound: map<string, seq<Edge>>, inDegree: map<string, int>)
    requires forall id :: id in zero ==> zero[id] == 0
    ensures outbound == OutboundIndex(edges)
    ensures forall id :: Get(inDegree, id) == Count(edges, Into(id))
  {
    outbound, inDegree := map[], zero;
    for i := 0 to |edges|
      invariant outbound == OutboundIndex(edges[..i])
      invariant forall id :: Get(inDegree, id) == Count(edges[..i], Into(id))
    {
      var edge := edges[i];
      assert edges[..i + 1] == edges[..i] + [edge];
      assert edges[..i + 1][..i] == edges[..i];
      OutboundSnoc(edges[..i], edge);
      if edge.from !in outbound {
        EdgesFromNowhere(edges[..i], edge.from);
      }
      outbound := outbound[edge.from := (if edge.from in outbound then outbound[edge.from] else []) + [edge]];
      inDegree := inDegree[edge.to := Get(inDegree, edge.to) + 1];
    }
    assert edges[..|edges|] == edges;
  }

  lemma RootsSnoc(nodes: seq<Node>, edges: seq<Edge>, n: Node)
    ensures Roots(nodes + [n], edges) == Roots(nodes, edges) + if Count(edges, Into(n.id)) == 0 then [n.id] else []
  {
    assert (nodes + [n])[..|nodes|] == nodes;
  }

  method CollectRoots(d: Definition, inDegree: map<string, int>) returns (roots: seq<string>)
    requires forall id :: Get(inDegree, id) == Count(d.edges, Into(id))
    ensures roots == Roots(d.nodes, d.edges)
  {
    roots := [];
    assert Roots(d.nodes[..0], d.edges) == [];
    hide Roots, Count;
    for i := 0 to |d.nodes|
      invariant roots == Roots(d.nodes[..i], d.edges)
    {
      assert d.nodes[..i + 1] == d.nodes[..i] + [d.nodes[i]];
      RootsSnoc(d.nodes[..i], d.edges, d.nodes[i]);
      if Get(inDegree, d.nodes[i].id) == 0 {
        roots := roots + [d.nodes[i].id];
      }
    }
    assert d.nodes[..|d.nodes|] == d.nodes;
  }

  // Choosing successors

  function Targets(edges: seq<Edge>): (r: seq<string>)
    ensures |r| == |edges|
    ensures forall i :: 0 <= i < |r| ==> r[i] == edges[i].to
  {
    seq(|edges|, i requires 0 <= i < |edges| => edges[i].to)
  }

  function Labelled(edges: seq<Edge>, branch: string): (r: seq<Edge>)
    ensures forall e :: e in r <==> e in edges && EqualFold(TrimSpace(e.condition), branch)
  {
    if edges == [] then []
    else
      var last := edges[|edges| - 1];
      assert edges == edges[..|edges| - 1] + [last];
      Labelled(edges[..|edges| - 1], branch) +
      if EqualFold(TrimSpace(last.condition), branch) then [last] else []
  }

  /** The `matched` flag a condition node reports; anything else reads as false. */
  predicate Matched(output: Value) {
    output.Object? && "matched" in output.fields && output.fields["matched"] == Bool(true)
  }

  function BranchOf(output: Value): string {
    if Matched(output) then "true" else "false"
  }

  /** The edges taken out of a node that produced `output`. */
  function Taken(g: Graph, node: Node, output: Value): seq<Edge> {
    if node.typ != "condition" then g.Outbound(node.id)
    else Labelled(g.Outbound(node.id), BranchOf(output))
  }

  function Next(g: Graph, node: Node, output: Value): seq<string> {
    Targets(Taken(g, node, output))
  }

  function Says(branch: string): Edge -> bool { (e: Edge) => EqualFold(TrimSpace(e.condition), branch) }

  lemma {:induction false} LabelledInOrder(edges: seq<Edge>, branch: string)
    ensures Selects(Labelled(edges, branch), edges, Says(branch))
  {
    if edges != [] {
      LabelledInOrder(edges[..|edges| - 1], branch);
      SelectsSnoc(Labelled(edges[..|edges| - 1], branch), edges, Says(branch));
    }
  }

  /** These are the targets, in order, of the edges that satisfy `p`. */
  ghost predicate TargetsOf(next: seq<string>, edges: seq<Edge>, p: Edge -> bool) {
    exists found: seq<Edge> ::
      Selects(found, edges, p) && |next| == |found| && forall k :: 0 <= k < |next| ==> next[k] == found[k].to
  }

  /** What the node is followed by: the targets of its edges, of a condition of those its result selects. */
  ghost predicate FollowedBy(g: Graph, node: Node, output: Value, next: seq<string>) {
    var edges := if node.id in g.outbound then g.outbound[node.id] else [];
    if node.typ != "condition" then |next| == |edges| && forall k :: 0 <= k < |edges| ==> next[k] == edges[k].to
    else if output.Object? && "matched" in output.fields && output.fields["matched"] == Bool(true) then
      TargetsOf(next, edges, Says("true"))
    else TargetsOf(next, edges, Says("false"))
  }

  lemma NextFollowed(g: Graph, node: Node, output: Value)
    ensures FollowedBy(g, node, output, Next(g, node, output))
  {
    hide Selects, EqualFold, TrimSpace, Labelled;
    LabelledInOrder(g.Outbound(node.id), BranchOf(output));
  }

  lemma TargetsSnoc(edges: seq<Edge>, e: Edge)
    ensures Targets([]) == [] && Targets(edges + [e]) == Targets(edges) + [e.to]
  {}

  lemma LabelledSnoc(edges: seq<Edge>, e: Edge, branch: string)
    ensures Labelled([], branch) == []
    ensures Labelled(edges + [e], branch)
         == Labelled(edges, branch) + if EqualFold(TrimSpace(e.condition), branch) then [e] else []
  {
    assert (edges + [e])[..|edges|] == edges;
  }

  lemma PrefixSnoc<T>(s: seq<T>, i: nat)
    requires i < |s|
    ensures s[..i + 1] == s[..i] + [s[i]]
  {}

  lemma NextIs(g: Graph, node: Node, output: Value)
    ensures var edges := g.Outbound(node.id);
            Next(g, node, output)
            == Targets(if node.typ != "condition" then edges else Labelled(edges, BranchOf(output)))
  {}

  lemma WholePrefix<T>(s: seq<T>)
    ensures s[..|s|] == s && s[..0] == []
  {}

  method NextNodes(g: Graph, node: Node, output: Value) returns (next: seq<string>)
    ensures next == Next(g, node, output)
    ensures FollowedBy(g, node, output, next)
  {
    NextFollowed(g, node, output);
    NextIs(g, node, output);
    var edges := g.Outbound(node.id);
    var branch := BranchOf(output);
    WholePrefix(edges);
    hide *;
    next := [];
    if node.typ != "condition" {
      TargetsSnoc([], Edge("", "", ""));
      for i := 0 to |edges|
        invariant next == Targets(edges[..i])
      {
        PrefixSnoc(edges, i);
        TargetsSnoc(edges[..i], edges[i]);
        next := next + [edges[i].to];
      }
      return;
    }
    LabelledSnoc([], Edge("", "", ""), branch);
    TargetsSnoc([], Edge("", "", ""));
    for i := 0 to |edges|
      invariant next == Targets(Labelled(edges[..i], branch))
    {
      PrefixSnoc(edges, i);
      LabelledSnoc(edges[..i], edges[i], branch);
      TargetsSnoc(Labelled(edges[..i], branch), edges[i]);
      if EqualFold(TrimSpace(edges[i].condition), branch) {
        next := next + [edges[i].to];
      }
    }
  }

  // What validation buys the engine

  lemma RawCountBelowTrimmed(edges: seq<Edge>, id: string)
    ensures Count(edges, Into(id)) <= Count(edges, IntoTrimmed(TrimSpace(id)))
  {
    CountMonotone(edges, Into(id), IntoTrimmed(TrimSpace(id)));
  }

  /** Every accepted definition builds, whether or not its identifiers are trimmed. */
  lemma AcceptedBuilds(d: Definition, httpToolOK: Fields -> bool)
    requires Accepted(d, httpToolOK)
    ensures Roots(d.nodes, d.edges) != []
  {
    var n :| n in d.nodes && Count(d.edges, IntoTrimmed(TrimSpace(n.id))) == 0;
    RawCountBelowTrimmed(d.edges, n.id);
    assert n.id in Roots(d.nodes, d.edges);
  }

  /** Accepted nodes keep their identifiers, so the graph holds every one of them unshadowed. */
  lemma {:induction false} AcceptedNodesKept(nodes: seq<Node>, httpToolOK: Fields -> bool, n: Node)
    requires NodesAccepted(nodes, httpToolOK) && n in nodes
    ensures NodesByID(nodes)[n.id] == n
  {
    hide TrimSpace, NodeAccepted;
    var k := |nodes| - 1;
    var last := nodes[k];
    if n != last {
      var i :| 0 <= i < |nodes| && nodes[i] == n;
      assert i < k && nodes[..k][i] == n;
      assert TrimSpace(nodes[i].id) != TrimSpace(nodes[k].id);
      AcceptedNodesKept(nodes[..k], httpToolOK, n);
    }
  }

  lemma RootIsNew(front: seq<Node>, edges: seq<Edge>, last: Node)
    requires forall n :: n in front ==> n.id != last.id
    ensures last.id !in Roots(front, edges)
  {
    hide Count;
  }

  lemma DistinctSnoc<T>(s: seq<T>, more: seq<T>)
    requires Distinct(s) && |more| <= 1 && forall x :: x in more ==> x !in s
    ensures Distinct(s + more)
  {
    if |more| == 1 {
      assert more[0] in more;
    }
  }

  /** The roots of an accepted definition are listed once each. */
  lemma {:induction false} AcceptedRootsDistinct(nodes: seq<Node>, edges: seq<Edge>, httpToolOK: Fields -> bool)
    requires NodesAccepted(nodes, httpToolOK)
    ensures Distinct(Roots(nodes, edges))
  {
    if nodes != [] {
      hide *;
      var k := |nodes| - 1;
      var front, last := nodes[..k], nodes[k];
      assert nodes == front + [last];
      FrontAccepted(nodes, httpToolOK);
      AcceptedRootsDistinct(front, edges, httpToolOK);
      RootIsNew(front, edges, last);
      RootsSnoc(front, edges, last);
      DistinctSnoc(Roots(front, edges), if Count(edges, Into(last.id)) == 0 then [last.id] else []);
    } else {
      assert Roots(nodes, edges) == [];
    }
  }

  lemma FrontAccepted(nodes: seq<Node>, httpToolOK: Fields -> bool)
    requires NodesAccepted(nodes, httpToolOK) && nodes != []
    ensures NodesAccepted(nodes[..|nodes| - 1], httpToolOK)
    ensures forall n :: n in nodes[..|nodes| - 1] ==> n.id != nodes[|nodes| - 1].id
  {
    hide TrimSpace, NodeAccepted;
    var k := |nodes| - 1;
    forall n | n in nodes[..k] ensures n.id != nodes[k].id {
      var i :| 0 <= i < k && nodes[..k][i] == n;
      assert TrimSpace(nodes[i].id) != TrimSpace(nodes[k].id);
    }
  }

  /** A condition node always has somewhere to go, for either result and even with untrimmed identifiers. */
  lemma AcceptedConditionContinues(d: Definition, httpToolOK: Fields -> bool, n: Node, output: Value)
    requires Accepted(d, httpToolOK) && n in d.nodes && n.typ == "condition"
    ensures Next(GraphOf(d), n, output) != []
  {
    assert BranchesAccepted(n, d.edges);
    BranchTaken(d, n, output);
  }

  lemma BranchTaken(d: Definition, n: Node, output: Value)
    requires n.typ == "condition" && BranchesAccepted(n, d.edges)
    ensures Next(GraphOf(d), n, output) != []
  {
    var branch := BranchOf(output);
    var e :| e in d.edges && e.from == n.id && LabelIs(e, branch);
    assert ToLower(branch) == branch;
    OutboundIsEdgesFrom(d, n.id);
    EdgesFromMember(d.edges, n.id, e);
    assert e in Labelled(EdgesFrom(d.edges, n.id), branch);
  }

  /** With trimmed identifiers no edge leads out of the definition. */
  lemma TrimmedTargetsKnown(d: Definition, httpToolOK: Fields -> bool, n: Node, output: Value, id: string)
    requires Accepted(d, httpToolOK) && TrimmedDefinition(d)
    requires id in Next(GraphOf(d), n, output)
    ensures id in GraphOf(d).nodes
  {
    var taken := Taken(GraphOf(d), n, output);
    var i :| 0 <= i < |taken| && taken[i].to == id;
    TakenIsEdge(d, n, output, taken[i]);
    EdgeTargetKnown(d, taken[i]);
  }

  lemma TakenIsEdge(d: Definition, n: Node, output: Value, e: Edge)
    requires e in Taken(GraphOf(d), n, output)
    ensures e in d.edges && e.from == n.id
  {
    OutboundIsEdgesFrom(d, n.id);
    EdgesFromMember(d.edges, n.id, e);
  }

  lemma EdgeTargetKnown(d: Definition, e: Edge)
    requires TrimmedDefinition(d) && e in d.edges && EdgeAccepted(e, TrimmedIDs(d.nodes))
    ensures e.to in GraphOf(d).nodes
  {
    assert Trimmed(e.to);
    var j :| 0 <= j < |d.nodes| && TrimSpace(d.nodes[j].id) == e.to;
    assert d.nodes[j] in d.nodes && Trimmed(d.nodes[j].id);
  }
}
