/** Dependency graphs: paths, cycles, execution orders and mirrored adjacency. */
module DagGraph {

  type JobId = nat

  /** An adjacency map; a missing key has no edges. */
  type Edges = map<JobId, seq<JobId>>

  function Targets(e: Edges, a: JobId): seq<JobId> {
    if a in e then e[a] else []
  }

  predicate Edge(e: Edges, a: JobId, b: JobId) {
    b in Targets(e, a)
  }

  /** The path goes along an edge to its `i`-th vertex. */
  ghost predicate StepAt(e: Edges, p: seq<JobId>, i: nat)
    requires 0 < i < |p|
  {
    Edge(e, p[i - 1], p[i])
  }

  ghost predicate IsPath(e: Edges, p: seq<JobId>) {
    |p| > 0 && forall i: nat {:trigger StepAt(e, p, i)} :: 0 < i < |p| ==> StepAt(e, p, i)
  }

  /** A path that comes back to one of its own vertices. */
  ghost predicate IsLasso(e: Edges, p: seq<JobId>) {
    IsPath(e, p) && |p| >= 2 && p[|p| - 1] in p[..|p| - 1]
  }

  ghost predicate ReachesCycle(e: Edges, roots: set<JobId>) {
    exists p :: IsLasso(e, p) && p[0] in roots
  }

  ghost predicate Acyclic(e: Edges) {
    forall p :: !IsLasso(e, p)
  }

  ghost predicate Reaches(e: Edges, a: JobId, b: JobId) {
    exists p :: IsPath(e, p) && p[0] == a && p[|p| - 1] == b
  }

  /** Every dependency of an entry of `order` stands before it. */
  ghost predicate Ordered(e: Edges, order: seq<JobId>) {
    forall i, b :: 0 <= i < |order| && Edge(e, order[i], b) ==> b in order[..i]
  }

  predicate NoDuplicates(s: seq<JobId>) {
    forall i, j :: 0 <= i < j < |s| ==> s[i] != s[j]
  }

  function Elements(s: seq<JobId>): set<JobId> {
    set x | x in s
  }

  // ---------------------------------------------------------------- paths

  lemma PathSuffix(e: Edges, p: seq<JobId>, k: nat)
    requires IsPath(e, p) && k < |p|
    ensures IsPath(e, p[k..])
  {
    forall i: nat | 0 < i < |p[k..]|
      ensures StepAt(e, p[k..], i)
    {
      assert StepAt(e, p, k + i);
    }
  }

  lemma PathExtend(e: Edges, p: seq<JobId>, b: JobId)
    requires IsPath(e, p) && Edge(e, p[|p| - 1], b)
    ensures IsPath(e, p + [b])
  {
    var q := p + [b];
    forall i: nat | 0 < i < |q|
      ensures StepAt(e, q, i)
    {
      if i < |p| {
        assert StepAt(e, p, i);
      }
    }
  }

  lemma PathPrefix(e: Edges, p: seq<JobId>, k: nat)
    requires IsPath(e, p) && 0 < k <= |p|
    ensures IsPath(e, p[..k])
  {
    forall i: nat | 0 < i < k
      ensures StepAt(e, p[..k], i)
    {
      assert StepAt(e, p, i);
    }
  }

  lemma PathIn(e: Edges, f: Edges, p: seq<JobId>)
    requires IsPath(e, p)
    requires forall a, b :: Edge(e, a, b) ==> Edge(f, a, b)
    ensures IsPath(f, p)
  {
    forall i: nat | 0 < i < |p|
      ensures StepAt(f, p, i)
    {
      assert StepAt(e, p, i);
    }
  }

  // ---------------------------------------------------------------- orders exclude cycles

  /** Along a path that starts in an order, every later vertex stands before the start. */
  lemma {:induction false} PathBelow(e: Edges, order: seq<JobId>, p: seq<JobId>, i: nat)
    requires Ordered(e, order) && IsPath(e, p) && i < |order| && p[0] == order[i]
    ensures forall k :: 0 < k < |p| ==> p[k] in order[..i]
    decreases |p|
  {
    if |p| > 1 {
      assert StepAt(e, p, 1);
      var j :| 0 <= j < i && order[j] == p[1];
      PathSuffix(e, p, 1);
      PathBelow(e, order, p[1..], j);
      forall k | 0 < k < |p|
        ensures p[k] in order[..i]
      {
        if k > 1 {
          assert p[1..][k - 1] in order[..j];
        }
      }
    }
  }

  /** No path that starts in an order comes back to itself. */
  lemma OrderedNoLasso(e: Edges, order: seq<JobId>, p: seq<JobId>)
    requires Ordered(e, order) && NoDuplicates(order) && IsPath(e, p) && p[0] in order
    ensures !IsLasso(e, p)
  {
    if IsLasso(e, p) {
      var n := |p| - 1;
      var k :| 0 <= k < n && p[k] == p[n];
      var i :| 0 <= i < |order| && order[i] == p[0];
      PathBelow(e, order, p, i);
      assert p[k] in order;
      var j :| 0 <= j < |order| && order[j] == p[k];
      PathSuffix(e, p, k);
      PathBelow(e, order, p[k..], j);
    }
  }

  // ---------------------------------------------------------------- dead ends give cycles

  lemma {:induction false} LongHasRepeat(s: seq<JobId>, u: set<JobId>)
    requires forall x :: x in s ==> x in u
    requires |s| > |u|
    ensures exists i, j :: 0 <= i < j < |s| && s[i] == s[j]
    decreases |s|
  {
    var n := |s| - 1;
    if s[n] in s[..n] {
      var i :| 0 <= i < n && s[i] == s[n];
    } else {
      assert forall x :: x in s[..n] ==> x in s;
      LongHasRepeat(s[..n], u - {s[n]});
      var i, j :| 0 <= i < j < n && s[..n][i] == s[..n][j];
      assert s[i] == s[j];
    }
  }

  ghost predicate HasWayOn(e: Edges, u: set<JobId>, x: JobId) {
    exists d :: d in u && Edge(e, x, d)
  }

  ghost predicate Stuck(e: Edges, u: set<JobId>) {
    forall x {:trigger HasWayOn(e, u, x)} :: x in u ==> HasWayOn(e, u, x)
  }

  lemma WayOn(e: Edges, u: set<JobId>, x: JobId) returns (d: JobId)
    requires x in u && Stuck(e, u)
    ensures d in u && Edge(e, x, d)
  {
    assert HasWayOn(e, u, x);
    d :| d in u && Edge(e, x, d);
  }

  /** A walk of any length inside a set that cannot be left. */
  lemma {:induction false} Walk(e: Edges, u: set<JobId>, x: JobId, n: nat) returns (p: seq<JobId>)
    requires x in u && Stuck(e, u)
    ensures |p| == n + 1 && p[0] == x && IsPath(e, p) && forall y :: y in p ==> y in u
  {
    if n == 0 {
      p := [x];
    } else {
      var q := Walk(e, u, x, n - 1);
      var d := WayOn(e, u, q[|q| - 1]);
      PathExtend(e, q, d);
      p := q + [d];
    }
  }

  /** A non-empty set in which every vertex has a successor inside reaches a cycle. */
  lemma StuckReachesCycle(e: Edges, u: set<JobId>, x: JobId)
    requires x in u && Stuck(e, u)
    ensures exists p :: IsLasso(e, p) && p[0] == x
  {
    var p := Walk(e, u, x, |u|);
    LongHasRepeat(p, u);
    var i, j :| 0 <= i < j < |p| && p[i] == p[j];
    var q := p[..j + 1];
    PathPrefix(e, p, j + 1);
    assert q[|q| - 1] == q[..|q| - 1][i];
    assert IsLasso(e, q);
  }

  // ---------------------------------------------------------------- mirrored adjacency

  /** The two maps hold the same edges, as multisets. */
  ghost predicate Mirror(deps: Edges, rdeps: Edges) {
    forall a, b :: multiset(Targets(deps, a))[b] == multiset(Targets(rdeps, b))[a]
  }

  lemma MirrorEdge(deps: Edges, rdeps: Edges, a: JobId, b: JobId)
    requires Mirror(deps, rdeps)
    ensures Edge(deps, a, b) <==> Edge(rdeps, b, a)
  {
    assert Edge(deps, a, b) <==> multiset(Targets(deps, a))[b] > 0;
    assert Edge(rdeps, b, a) <==> multiset(Targets(rdeps, b))[a] > 0;
  }
}
