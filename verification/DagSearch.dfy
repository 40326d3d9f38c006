/** The graph searches of the DAG scheduler: cycle detection, topological sort, closure. */
module DagSearch {
  import opened DagGraph

  datatype Color = White | Gray | Black

  /** A vertex that was never coloured is white. */
  function ColorOf(color: map<JobId, Color>, x: JobId): Color {
    if x in color then color[x] else White
  }

  ghost function Vertices(e: Edges, roots: set<JobId>): set<JobId> {
    roots + e.Keys + set a, b | a in e && b in e[a] :: b
  }

  ghost function NonWhite(color: map<JobId, Color>): set<JobId> {
    set x | x in color && color[x] != White
  }

  /** Gray vertices are those on the stack, black ones those finished, in an order. */
  ghost predicate Searching(e: Edges, color: map<JobId, Color>, stack: seq<JobId>, done: seq<JobId>) {
    && (forall x :: ColorOf(color, x) == Gray <==> x in stack)
    && (forall x :: ColorOf(color, x) == Black <==> x in done)
    && Ordered(e, done) && NoDuplicates(done)
  }

  lemma SearchingColors(e: Edges, color: map<JobId, Color>, stack: seq<JobId>, done: seq<JobId>, x: JobId)
    requires Searching(e, color, stack, done)
    ensures x in NonWhite(color) <==> x in stack || x in done
    ensures ColorOf(color, x) == Gray <==> x in stack
    ensures ColorOf(color, x) == Black <==> x in done
  {
    assert ColorOf(color, x) == Gray <==> x in stack;
    assert ColorOf(color, x) == Black <==> x in done;
  }

  lemma BackEdge(e: Edges, path: seq<JobId>, dep: JobId)
    requires IsPath(e, path) && Edge(e, path[|path| - 1], dep) && dep in path
    ensures exists p :: IsLasso(e, p) && p[0] == path[0]
  {
    PathExtend(e, path, dep);
    assert IsLasso(e, path + [dep]);
  }

  lemma Push(e: Edges, color: map<JobId, Color>, stack: seq<JobId>, done: seq<JobId>, id: JobId)
    requires Searching(e, color, stack, done) && ColorOf(color, id) == White
    ensures Searching(e, color[id := Gray], stack + [id], done)
  {
    forall x
      ensures ColorOf(color[id := Gray], x) == Gray <==> x in stack + [id]
      ensures ColorOf(color[id := Gray], x) == Black <==> x in done
    {
      assert ColorOf(color, x) == Gray <==> x in stack;
      assert ColorOf(color, x) == Black <==> x in done;
    }
  }

  lemma Pop(e: Edges, color: map<JobId, Color>, stack: seq<JobId>, done: seq<JobId>, id: JobId)
    requires Searching(e, color, stack + [id], done) && id !in stack
    requires forall b :: Edge(e, id, b) ==> b in done
    ensures Searching(e, color[id := Black], stack, done + [id])
  {
    assert id in stack + [id];
    assert ColorOf(color, id) == Gray;
    forall x
      ensures ColorOf(color[id := Black], x) == Gray <==> x in stack
      ensures ColorOf(color[id := Black], x) == Black <==> x in done + [id]
    {
      assert ColorOf(color, x) == Gray <==> x in stack + [id];
      assert ColorOf(color, x) == Black <==> x in done;
    }
    OrderedAppend(e, done, id);
  }

  lemma OrderedAppend(e: Edges, order: seq<JobId>, id: JobId)
    requires Ordered(e, order) && forall b :: Edge(e, id, b) ==> b in order
    ensures Ordered(e, order + [id])
  {
    var order' := order + [id];
    forall i, b | 0 <= i < |order'| && Edge(e, order'[i], b)
      ensures b in order'[..i]
    {
      if i < |order| {
        assert order'[i] == order[i] && order'[..i] == order[..i];
      } else {
        assert order'[..i] == order;
      }
    }
  }

  lemma SmallerRest(u: set<JobId>, a: set<JobId>, b: set<JobId>, x: JobId)
    requires a <= b && x in u && x !in a && x in b
    ensures |u - b| < |u - a|
  {
    assert u - b <= (u - a) - {x};
    SubsetSize(u - b, (u - a) - {x});
  }

  lemma {:induction false} SubsetSize(a: set<JobId>, b: set<JobId>)
    requires a <= b
    ensures |a| <= |b|
    decreases a
  {
    if a != {} {
      var x :| x in a;
      SubsetSize(a - {x}, b - {x});
    }
  }

  lemma EdgeTarget(e: Edges, roots: set<JobId>, a: JobId, b: JobId)
    requires Edge(e, a, b)
    ensures b in Vertices(e, roots)
  {
  }

  /** Depth-first search from a white vertex that the path `stack` leads to. */
  method Dfs(e: Edges, id: JobId, color: map<JobId, Color>,
             ghost roots: set<JobId>, ghost stack: seq<JobId>, ghost done: seq<JobId>)
    returns (found: bool, color': map<JobId, Color>, ghost done': seq<JobId>)
    requires Searching(e, color, stack, done) && ColorOf(color, id) == White
    requires id in Vertices(e, roots) && IsPath(e, stack + [id])
    ensures found ==> exists p :: IsLasso(e, p) && p[0] == (stack + [id])[0]
    ensures !found ==> Searching(e, color', stack, done') && done <= done' && id in done'
    decreases |Vertices(e, roots) - NonWhite(color)|
  {
    hide Searching, IsPath, IsLasso, NonWhite, Vertices;
    ghost var path := stack + [id];
    SearchingColors(e, color, stack, done, id);
    Push(e, color, stack, done, id);
    color', done', found := color[id := Gray], done, false;
    if id in e {
      for k := 0 to |e[id]|
        invariant Searching(e, color', path, done') && done <= done'
        invariant forall j :: 0 <= j < k ==> e[id][j] in done'
      {
        var dep := e[id][k];
        assert Edge(e, id, dep);
        SearchingColors(e, color', path, done', dep);
        if ColorOf(color', dep) == Gray {
          BackEdge(e, path, dep);
          found := true;
          return;
        }
        if ColorOf(color', dep) == White {
          PathExtend(e, path, dep);
          EdgeTarget(e, roots, id, dep);
          Deeper(e, color, color', stack, done, done', id, roots);
          found, color', done' := Dfs(e, dep, color', roots, path, done');
          if found {
            return;
          }
        }
      }
    }
    Pop(e, color', stack, done', id);
    color', done' := color'[id := Black], done' + [id];
  }

  lemma Deeper(e: Edges, color: map<JobId, Color>, color': map<JobId, Color>, stack: seq<JobId>,
               done: seq<JobId>, done': seq<JobId>, id: JobId, roots: set<JobId>)
    requires Searching(e, color, stack, done) && Searching(e, color', stack + [id], done') && done <= done'
    requires ColorOf(color, id) == White && id in Vertices(e, roots)
    ensures |Vertices(e, roots) - NonWhite(color')| < |Vertices(e, roots) - NonWhite(color)|
  {
    forall x | x in NonWhite(color)
      ensures x in NonWhite(color')
    {
      SearchingColors(e, color, stack, done, x);
      SearchingColors(e, color', stack + [id], done', x);
    }
    SearchingColors(e, color, stack, done, id);
    SearchingColors(e, color', stack + [id], done', id);
    SmallerRest(Vertices(e, roots), NonWhite(color), NonWhite(color'), id);
  }

  /** Three-colour cycle detection from every job. */
  method DetectCycle(e: Edges, jobs: set<JobId>) returns (found: bool)
    ensures found <==> ReachesCycle(e, jobs)
  {
    var color: map<JobId, Color> := map[];
    ghost var done: seq<JobId> := [];
    var rest := jobs;
    while rest != {}
      invariant rest <= jobs
      invariant Searching(e, color, [], done)
      invariant forall x :: x in jobs - rest ==> x in done
      decreases rest
    {
      var id :| id in rest;
      if ColorOf(color, id) == White {
        assert [] + [id] == [id];
        found, color, done := Dfs(e, id, color, jobs, [], done);
        if found {
          return;
        }
      } else {
        assert id in done;
      }
      rest := rest - {id};
    }
    found := false;
    if ReachesCycle(e, jobs) {
      var p :| IsLasso(e, p) && p[0] in jobs;
      OrderedNoLasso(e, done, p);
    }
  }

  // ---------------------------------------------------------------- Kahn's algorithm

  /** How many entries of `s` are not yet done, counting repetitions. */
  ghost function Waiting(s: seq<JobId>, done: set<JobId>): nat {
    if s == [] then 0 else (if s[0] in done then 0 else 1) + Waiting(s[1..], done)
  }

  lemma {:induction false} WaitingDone(s: seq<JobId>, done: set<JobId>, c: JobId)
    requires c !in done
    ensures Waiting(s, done) == Waiting(s, done + {c}) + multiset(s)[c]
  {
    if s != [] {
      WaitingDone(s[1..], done, c);
      assert s == [s[0]] + s[1..];
    }
  }

  lemma {:induction false} WaitingZero(s: seq<JobId>, done: set<JobId>)
    ensures Waiting(s, done) == 0 <==> forall x :: x in s ==> x in done
  {
    if s != [] {
      WaitingZero(s[1..], done);
      assert s == [s[0]] + s[1..];
    }
  }

  lemma {:induction false} WaitingAll(s: seq<JobId>)
    ensures Waiting(s, {}) == |s|
  {
    if s != [] {
      WaitingAll(s[1..]);
    }
  }

  /** `queued` lists, once each, the jobs whose in-degree has dropped to zero. */
  ghost predicate Queued(degree: map<JobId, int>, queued: seq<JobId>) {
    && NoDuplicates(queued)
    && forall x :: x in degree && degree[x] == 0 <==> x in queued
  }

  /** Between two rounds: in-degrees count the dependencies that are still to come. */
  ghost predicate Counted(e: Edges, jobs: set<JobId>, degree: map<JobId, int>, done: set<JobId>) {
    degree.Keys == jobs && forall x :: x in jobs ==> degree[x] == Waiting(Targets(e, x), done)
  }

  /** Inside a round: the dependents in `seen` have been counted down for the current job. */
  ghost predicate Counting(e: Edges, jobs: set<JobId>, degree: map<JobId, int>,
                           done: set<JobId>, seen: seq<JobId>) {
    && degree.Keys == jobs
    && forall x :: x in jobs ==> degree[x] == Waiting(Targets(e, x), done) - multiset(seen)[x]
  }

  lemma CountingDone(e: Edges, r: Edges, jobs: set<JobId>, degree: map<JobId, int>, done: set<JobId>, c: JobId)
    requires Mirror(e, r) && c !in done
    requires Counting(e, jobs, degree, done, Targets(r, c))
    ensures Counted(e, jobs, degree, done + {c})
  {
    forall x | x in jobs
      ensures degree[x] == Waiting(Targets(e, x), done + {c})
    {
      WaitingDone(Targets(e, x), done, c);
      assert multiset(Targets(e, x))[c] == multiset(Targets(r, c))[x];
    }
  }

  /** The next dependent of the current job is a job and still waits for it. */
  lemma NextWaits(e: Edges, r: Edges, jobs: set<JobId>, degree: map<JobId, int>,
                  done: set<JobId>, c: JobId, j: nat)
    requires Mirror(e, r) && e.Keys <= jobs && c !in done && j < |Targets(r, c)|
    requires Counting(e, jobs, degree, done, Targets(r, c)[..j])
    ensures Targets(r, c)[j] in jobs && degree[Targets(r, c)[j]] > 0
  {
    hide Mirror;
    var x := Targets(r, c)[j];
    MirrorEdge(e, r, x, c);
    MirrorCount(e, r, x, c);
    WaitingDone(Targets(e, x), done, c);
    PrefixCount(Targets(r, c), j);
  }

  lemma MirrorCount(e: Edges, r: Edges, a: JobId, b: JobId)
    requires Mirror(e, r)
    ensures multiset(Targets(e, a))[b] == multiset(Targets(r, b))[a]
  {
  }

  lemma PrefixCount(s: seq<JobId>, j: nat)
    requires j < |s|
    ensures multiset(s[..j])[s[j]] < multiset(s)[s[j]]
  {
    assert s == s[..j] + ([s[j]] + s[j + 1..]);
    assert multiset(s) == multiset(s[..j]) + multiset([s[j]] + s[j + 1..]);
  }

  lemma CountDown(e: Edges, jobs: set<JobId>, degree: map<JobId, int>, done: set<JobId>,
                  rd: seq<JobId>, j: nat)
    requires j < |rd| && rd[j] in jobs && Counting(e, jobs, degree, done, rd[..j])
    ensures Counting(e, jobs, degree[rd[j] := degree[rd[j]] - 1], done, rd[..j + 1])
  {
    assert rd[..j + 1] == rd[..j] + [rd[j]];
  }

  lemma StillQueued(degree: map<JobId, int>, queued: seq<JobId>, x: JobId)
    requires Queued(degree, queued) && x in degree && degree[x] > 0
    ensures x !in queued
    ensures degree[x] - 1 == 0 ==> Queued(degree[x := degree[x] - 1], queued + [x])
    ensures degree[x] - 1 != 0 ==> Queued(degree[x := degree[x] - 1], queued)
  {
  }

  lemma OrderedEmpty(e: Edges)
    ensures Ordered(e, []) && Elements([]) == {}
  {
  }

  lemma RoundStart(e: Edges, jobs: set<JobId>, degree: map<JobId, int>, done: set<JobId>, rd: seq<JobId>)
    requires Counted(e, jobs, degree, done)
    ensures Counting(e, jobs, degree, done, rd[..0])
  {
    assert rd[..0] == [];
  }

  lemma CountingKeys(e: Edges, jobs: set<JobId>, degree: map<JobId, int>, done: set<JobId>, seen: seq<JobId>)
    requires Counting(e, jobs, degree, done, seen)
    ensures degree.Keys == jobs
  {
  }

  lemma QueuedDistinct(degree: map<JobId, int>, queued: seq<JobId>)
    requires Queued(degree, queued)
    ensures NoDuplicates(queued)
  {
  }

  /** Returns the jobs in dependency order, or nothing when there is no such order. */
  method TopologicalSort(e: Edges, r: Edges, jobs: set<JobId>) returns (order: seq<JobId>)
    requires Mirror(e, r) && e.Keys <= jobs
    ensures order != [] ==> NoDuplicates(order) && Elements(order) == jobs && Ordered(e, order)
    ensures order == [] <==>
              jobs == {} || ReachesCycle(e, jobs) || exists a, b :: Edge(e, a, b) && b !in jobs
  {
    hide Queued, Counted, Counting, Ordered, Mirror, ReachesCycle, NoDuplicates;
    var degree, ready := InitialDegrees(e, jobs);
    order := [];
    OrderedEmpty(e);
    assert order + ready == ready;
    while ready != []
      invariant Queued(degree, order + ready)
      invariant Counted(e, jobs, degree, Elements(order))
      invariant Ordered(e, order) && Elements(order) <= jobs
      decreases jobs - Elements(order)
    {
      var current := ready[0];
      ghost var done := Elements(order);
      QueueFront(e, jobs, degree, order, ready);
      assert order + ready == order + [current] + ready[1..];
      ready := ready[1..];
      order := order + [current];
      var rd := Targets(r, current);
      RoundStart(e, jobs, degree, done, rd);
      for j := 0 to |rd|
        invariant Queued(degree, order + ready)
        invariant Counting(e, jobs, degree, done, rd[..j])
      {
        NextWaits(e, r, jobs, degree, done, current, j);
        CountingKeys(e, jobs, degree, done, rd[..j]);
        CountDown(e, jobs, degree, done, rd, j);
        StillQueued(degree, order + ready, rd[j]);
        degree := degree[rd[j] := degree[rd[j]] - 1];
        if degree[rd[j]] == 0 {
          assert order + ready + [rd[j]] == order + (ready + [rd[j]]);
          ready := ready + [rd[j]];
        }
      }
      assert rd[..|rd|] == rd;
      CountingDone(e, r, jobs, degree, done, current);
      assert Elements(order) == done + {current};
    }
    assert order + ready == order;
    QueuedDistinct(degree, order);
    SizeTest(order, jobs);
    if |order| != |jobs| {
      LeftOver(e, jobs, degree, order);
      order := [];
    } else {
      FullOrder(e, jobs, order);
    }
  }

  /** The in-degrees of all jobs, and the jobs without dependencies. */
  method InitialDegrees(e: Edges, jobs: set<JobId>) returns (degree: map<JobId, int>, ready: seq<JobId>)
    requires e.Keys <= jobs
    ensures Counted(e, jobs, degree, {}) && Queued(degree, ready)
  {
    degree := map x | x in jobs :: 0;
    var rest := e.Keys;
    while rest != {}
      invariant rest <= e.Keys && degree.Keys == jobs
      invariant forall x :: x in jobs ==> degree[x] == if x in rest then 0 else |Targets(e, x)|
      decreases rest
    {
      var id :| id in rest;
      degree := degree[id := |e[id]|];
      rest := rest - {id};
    }
    forall x | x in jobs
      ensures degree[x] == Waiting(Targets(e, x), {})
    {
      WaitingAll(Targets(e, x));
    }
    ready := [];
    rest := jobs;
    while rest != {}
      invariant rest <= jobs && NoDuplicates(ready)
      invariant forall x :: x in jobs - rest && degree[x] == 0 <==> x in ready
      decreases rest
    {
      var id :| id in rest;
      if degree[id] == 0 {
        ready := ready + [id];
      }
      rest := rest - {id};
    }
  }

  lemma QueueFront(e: Edges, jobs: set<JobId>, degree: map<JobId, int>, order: seq<JobId>, ready: seq<JobId>)
    requires ready != [] && Queued(degree, order + ready) && Counted(e, jobs, degree, Elements(order))
    requires Ordered(e, order)
    ensures ready[0] in jobs && ready[0] !in Elements(order) && Ordered(e, order + [ready[0]])
  {
    var c, q := ready[0], order + ready;
    assert q[|order|] == c;
    WaitingZero(Targets(e, c), Elements(order));
    assert forall i :: 0 <= i < |order| ==> q[i] == order[i];
    OrderedAppend(e, order, c);
  }

  lemma SizeTest(order: seq<JobId>, jobs: set<JobId>)
    requires NoDuplicates(order) && Elements(order) <= jobs
    ensures |order| == |jobs| <==> Elements(order) == jobs
  {
    DistinctSize(order);
    assert |jobs - Elements(order)| == |jobs| - |Elements(order)|;
  }

  lemma {:induction false} DistinctSize(order: seq<JobId>)
    requires NoDuplicates(order)
    ensures |Elements(order)| == |order|
  {
    if order != [] {
      var n := |order| - 1;
      DistinctSize(order[..n]);
      assert Elements(order) == Elements(order[..n]) + {order[n]};
    }
  }

  /** Jobs that were never queued all wait for a missing job or for each other. */
  lemma LeftOver(e: Edges, jobs: set<JobId>, degree: map<JobId, int>, order: seq<JobId>)
    requires Queued(degree, order) && Counted(e, jobs, degree, Elements(order))
    requires Elements(order) <= jobs && Elements(order) != jobs
    ensures ReachesCycle(e, jobs) || exists a, b :: Edge(e, a, b) && b !in jobs
  {
    var u := jobs - Elements(order);
    if forall a, b :: Edge(e, a, b) ==> b in jobs {
      forall x | x in u
        ensures HasWayOn(e, u, x)
      {
        WaitingZero(Targets(e, x), Elements(order));
        var d :| d in Targets(e, x) && d !in Elements(order);
        assert Edge(e, x, d);
      }
      var x :| x in jobs && x !in Elements(order);
      StuckReachesCycle(e, u, x);
    }
  }

  lemma FullOrder(e: Edges, jobs: set<JobId>, order: seq<JobId>)
    requires NoDuplicates(order) && Ordered(e, order) && Elements(order) == jobs && e.Keys <= jobs
    ensures !ReachesCycle(e, jobs) && forall a, b :: Edge(e, a, b) ==> b in jobs
  {
    if ReachesCycle(e, jobs) {
      var p :| IsLasso(e, p) && p[0] in jobs;
      OrderedNoLasso(e, order, p);
    }
    forall a, b | Edge(e, a, b)
      ensures b in jobs
    {
      assert a in order;
      var i :| 0 <= i < |order| && order[i] == a;
      assert b in order[..i];
    }
  }

  // ---------------------------------------------------------------- the closure of a target

  /** The target and everything it depends on, directly or not. */
  method NeededJobs(e: Edges, target: JobId) returns (needed: set<JobId>)
    ensures forall x :: x in needed <==> Reaches(e, target, x)
  {
    needed := {};
    var stack := [target];
    ReachesSelf(e, target);
    while stack != []
      invariant forall x :: x in stack || x in needed ==> Reaches(e, target, x)
      invariant target in needed || target in stack
      invariant forall x, y :: x in needed && Edge(e, x, y) ==> y in needed || y in stack
      decreases Vertices(e, {target}) - needed, |stack|
    {
      var current := stack[|stack| - 1];
      ghost var before := stack;
      stack := stack[..|stack| - 1];
      assert forall x :: x in before ==> x == current || x in stack;
      if current in needed {
        continue;
      }
      ReachedVertex(e, target, current);
      needed := needed + {current};
      if current in e {
        ReachesNext(e, target, current);
        stack := stack + e[current];
      }
    }
    forall x | Reaches(e, target, x)
      ensures x in needed
    {
      var p :| IsPath(e, p) && p[0] == target && p[|p| - 1] == x;
      ClosedPath(e, needed, p, |p| - 1);
    }
  }

  lemma ReachesSelf(e: Edges, a: JobId)
    ensures Reaches(e, a, a)
  {
    assert IsPath(e, [a]) && [a][0] == a && [a][|[a]| - 1] == a;
  }

  lemma ReachesNext(e: Edges, a: JobId, b: JobId)
    requires Reaches(e, a, b)
    ensures forall c :: Edge(e, b, c) ==> Reaches(e, a, c)
  {
    var p :| IsPath(e, p) && p[0] == a && p[|p| - 1] == b;
    forall c | Edge(e, b, c)
      ensures Reaches(e, a, c)
    {
      PathExtend(e, p, c);
      var q := p + [c];
      assert q[0] == a && q[|q| - 1] == c;
    }
  }

  lemma ReachedVertex(e: Edges, a: JobId, b: JobId)
    requires Reaches(e, a, b)
    ensures b in Vertices(e, {a})
  {
    var p :| IsPath(e, p) && p[0] == a && p[|p| - 1] == b;
    if |p| > 1 {
      assert StepAt(e, p, |p| - 1);
      EdgeTarget(e, {a}, p[|p| - 2], b);
    }
  }

  lemma {:induction false} ClosedPath(e: Edges, s: set<JobId>, p: seq<JobId>, k: nat)
    requires IsPath(e, p) && p[0] in s && k < |p|
    requires forall x, y :: x in s && Edge(e, x, y) ==> y in s
    ensures p[k] in s
  {
    if k > 0 {
      ClosedPath(e, s, p, k - 1);
      assert StepAt(e, p, k);
    }
  }
}
