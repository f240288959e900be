/** The shape of a validated definition: a forest hanging from the roots the engine starts at. */
module Forest {
  import opened Text
  import opened Values
  import opened Workflow
  import opened Graphs

  /** No two edges, at whatever positions, enter the same node. */
  ghost predicate SingleEntry(d: Definition) {
    forall i, j :: 0 <= i < j < |d.edges| ==> d.edges[i].to != d.edges[j].to
  }

  ghost predicate Linked(d: Definition, parent: string, child: string) {
    exists e :: e in d.edges && e.from == parent && e.to == child
  }

  ghost predicate IsRoot(d: Definition, id: string) {
    id in Roots(d.nodes, d.edges)
  }

  /** A path starts at a root and follows edges. */
  ghost predicate IsPath(d: Definition, path: seq<string>) {
    && path != []
    && IsRoot(d, path[0])
    && forall i :: 0 <= i < |path| - 1 ==> Linked(d, path[i], path[i + 1])
  }

  lemma AcceptedSingleEntry(d: Definition, httpToolOK: Fields -> bool)
    requires Accepted(d, httpToolOK) && TrimmedDefinition(d)
    ensures SingleEntry(d)
  {
    forall i, j | 0 <= i < j < |d.edges|
      ensures d.edges[i].to != d.edges[j].to
    {
      var e, f := d.edges[i], d.edges[j];
      assert e in d.edges;
      EdgeTargetCountedOnce(d, httpToolOK, e);
      if e.to == f.to {
        CountTwo(d.edges, Into(e.to), i, j);
      }
    }
  }

  lemma EdgeTargetCountedOnce(d: Definition, httpToolOK: Fields -> bool, e: Edge)
    requires Accepted(d, httpToolOK) && TrimmedDefinition(d) && e in d.edges
    ensures Count(d.edges, Into(e.to)) <= 1
  {
    assert EdgeAccepted(e, TrimmedIDs(d.nodes)) && Trimmed(e.to);
    var k :| 0 <= k < |d.nodes| && TrimSpace(d.nodes[k].id) == e.to;
    var n := d.nodes[k];
    assert n in d.nodes && Trimmed(n.id);
    assert DegreesAccepted(n, d.edges);
    RawCountBelowTrimmed(d.edges, n.id);
  }

  lemma RootNotEntered(d: Definition, parent: string, child: string)
    requires Linked(d, parent, child)
    ensures !IsRoot(d, child)
  {
    var e :| e in d.edges && e.from == parent && e.to == child;
    var i :| 0 <= i < |d.edges| && d.edges[i] == e;
    CountOne(d.edges, Into(child), i);
  }

  lemma OneParent(d: Definition, a: string, b: string, child: string)
    requires SingleEntry(d) && Linked(d, a, child) && Linked(d, b, child)
    ensures a == b
  {
    var e :| e in d.edges && e.from == a && e.to == child;
    var f :| f in d.edges && f.from == b && f.to == child;
    var i :| 0 <= i < |d.edges| && d.edges[i] == e;
    var j :| 0 <= j < |d.edges| && d.edges[j] == f;
    assert i == j;
  }

  /** A node is reached along at most one path. */
  lemma {:induction false} PathsUnique(d: Definition, p: seq<string>, q: seq<string>)
    requires SingleEntry(d) && IsPath(d, p) && IsPath(d, q)
    requires p[|p| - 1] == q[|q| - 1]
    ensures p == q
    decreases |p|
  {
    var m, n := |p| - 1, |q| - 1;
    if m > 0 {
      RootNotEntered(d, p[m - 1], p[m]);
    }
    if n > 0 {
      RootNotEntered(d, q[n - 1], q[n]);
    }
    if m > 0 {
      assert n > 0;
      OneParent(d, p[m - 1], q[n - 1], p[m]);
      PathsUnique(d, p[..m], q[..n]);
      assert p == p[..m] + [p[m]] && q == q[..n] + [q[n]];
    }
  }

  /** The reachable part of a validated definition is a forest. */
  lemma ValidatedIsForest(d: Definition, httpToolOK: Fields -> bool, p: seq<string>, q: seq<string>)
    requires Accepted(d, httpToolOK) && TrimmedDefinition(d)
    requires IsPath(d, p) && IsPath(d, q) && p[|p| - 1] == q[|q| - 1]
    ensures p == q
  {
    AcceptedSingleEntry(d, httpToolOK);
    PathsUnique(d, p, q);
  }
}
