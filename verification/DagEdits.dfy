/** Edits of the DAG scheduler's graph: what each call does and what every sequence of calls keeps. */
module DagEdits {
  import opened DagGraph
  import opened DagModel
  import Search = DagSearch

  /** The job table and the two adjacency maps. */
  datatype Net = Net(jobs: Jobs, deps: Edges, rdeps: Edges)

  datatype Edit =
    | AddJob(id: JobId, list: seq<JobId>)
    | AddDependency(dependent: JobId, dependency: JobId)
    | RemoveJob(id: JobId)

  function Without(s: seq<JobId>, id: JobId): seq<JobId> {
    if s == [] then [] else (if s[0] == id then [] else [s[0]]) + Without(s[1..], id)
  }

  function PushEdge(e: Edges, a: JobId, b: JobId): Edges {
    e[a := Targets(e, a) + [b]]
  }

  /** The edges `id -> dep` for every listed dependency, added to a dependency map. */
  function AddTargets(e: Edges, id: JobId, list: seq<JobId>): Edges {
    if list == [] then e else e[id := Targets(e, id) + list]
  }

  /** The same edges the other way round, pushed one after the other. */
  function AddSources(e: Edges, id: JobId, list: seq<JobId>): Edges {
    if list == [] then e
    else PushEdge(AddSources(e, id, list[..|list| - 1]), list[|list| - 1], id)
  }

  /** How many edges lead from `a` to `b`. */
  ghost function Multiplicity(e: Edges, a: JobId, b: JobId): nat {
    multiset(Targets(e, a))[b]
  }

  /** The same edges, whatever the empty entries. */
  ghost predicate SameEdges(e: Edges, f: Edges) {
    forall a :: Targets(e, a) == Targets(f, a)
  }

  // ---------------------------------------------------------------- facts about edits

  lemma {:induction false} WithoutCounts(s: seq<JobId>, id: JobId)
    ensures forall x :: multiset(Without(s, id))[x] == if x == id then 0 else multiset(s)[x]
  {
    if s != [] {
      WithoutCounts(s[1..], id);
      assert s == [s[0]] + s[1..];
    }
  }

  lemma {:induction false} WithoutAbsent(s: seq<JobId>, id: JobId)
    requires id !in s
    ensures Without(s, id) == s
  {
    if s != [] {
      WithoutAbsent(s[1..], id);
    }
  }

  lemma {:induction false} WithoutMore(s: seq<JobId>, id: JobId)
    ensures Without(s + [id], id) == Without(s, id)
  {
    if s == [] {
      assert Without([id], id) == [] + Without([id][1..], id);
    } else {
      WithoutMore(s[1..], id);
      assert (s + [id])[1..] == s[1..] + [id];
    }
  }

  lemma PushCounts(e: Edges, a: JobId, b: JobId, x: JobId, y: JobId)
    ensures Multiplicity(PushEdge(e, a, b), x, y)
            == Multiplicity(e, x, y) + if x == a && y == b then 1 else 0
  {
  }

  lemma MirrorPush(deps: Edges, rdeps: Edges, a: JobId, b: JobId)
    requires Mirror(deps, rdeps)
    ensures Mirror(PushEdge(deps, a, b), PushEdge(rdeps, b, a))
  {
    hide PushEdge;
    forall x, y
      ensures multiset(Targets(PushEdge(deps, a, b), x))[y] == multiset(Targets(PushEdge(rdeps, b, a), y))[x]
    {
      PushCounts(deps, a, b, x, y);
      PushCounts(rdeps, b, a, y, x);
      Search.MirrorCount(deps, rdeps, x, y);
    }
  }

  /** Adding all listed edges in both directions keeps the maps mirrored. */
  lemma {:induction false} MirrorAdded(deps: Edges, rdeps: Edges, id: JobId, list: seq<JobId>)
    requires Mirror(deps, rdeps)
    ensures Mirror(AddTargets(deps, id, list), AddSources(rdeps, id, list))
  {
    hide Mirror;
    if list != [] {
      var n := |list| - 1;
      MirrorAdded(deps, rdeps, id, list[..n]);
      MirrorPush(AddTargets(deps, id, list[..n]), AddSources(rdeps, id, list[..n]), id, list[n]);
      AddOne(deps, id, list, n);
      assert list[..n + 1] == list;
    }
  }

  lemma AddOne(e: Edges, id: JobId, list: seq<JobId>, k: nat)
    requires k < |list|
    ensures PushEdge(AddTargets(e, id, list[..k]), id, list[k]) == AddTargets(e, id, list[..k + 1])
  {
    assert list[..k + 1] == list[..k] + [list[k]];
    var e' := AddTargets(e, id, list[..k]);
    assert Targets(e', id) + [list[k]] == Targets(e, id) + list[..k + 1];
  }

  /** Every edge that touches `id` is gone, the others are kept. */
  function Dropped(e: Edges, id: JobId): Edges {
    map a | a in e && a != id :: Without(e[a], id)
  }

  lemma DroppedCounts(e: Edges, id: JobId, a: JobId, b: JobId)
    ensures Multiplicity(Dropped(e, id), a, b) == if a == id || b == id then 0 else Multiplicity(e, a, b)
  {
    if a in e {
      WithoutCounts(e[a], id);
    }
  }

  lemma MirrorDropped(deps: Edges, rdeps: Edges, id: JobId)
    requires Mirror(deps, rdeps)
    ensures Mirror(Dropped(deps, id), Dropped(rdeps, id))
  {
    forall a, b
      ensures multiset(Targets(Dropped(deps, id), a))[b] == multiset(Targets(Dropped(rdeps, id), b))[a]
    {
      DroppedCounts(deps, id, a, b);
      DroppedCounts(rdeps, id, b, a);
      assert multiset(Targets(deps, a))[b] == multiset(Targets(rdeps, b))[a];
    }
  }

  lemma FewerEdgesAcyclic(e: Edges, f: Edges)
    requires Acyclic(f) && forall a, b :: Edge(e, a, b) ==> Edge(f, a, b)
    ensures Acyclic(e)
  {
    forall p
      ensures !IsLasso(e, p)
    {
      if IsLasso(e, p) {
        LassoIn(e, f, p);
      }
    }
  }

  lemma LassoIn(e: Edges, f: Edges, p: seq<JobId>)
    requires IsLasso(e, p) && forall a, b :: Edge(e, a, b) ==> Edge(f, a, b)
    ensures IsLasso(f, p)
  {
    PathIn(e, f, p);
  }

  lemma DroppedAcyclic(e: Edges, id: JobId)
    requires Acyclic(e)
    ensures Acyclic(Dropped(e, id))
  {
    forall a, b | Edge(Dropped(e, id), a, b)
      ensures Edge(e, a, b)
    {
      DroppedCounts(e, id, a, b);
      assert Multiplicity(Dropped(e, id), a, b) > 0;
    }
    FewerEdgesAcyclic(Dropped(e, id), e);
  }

  /**
    A lasso of a graph whose only vertex outside `jobs` with edges is `id` can be entered
    from a job, unless it is the loop from `id` to itself.
   */
  lemma LassoFromJob(e: Edges, jobs: set<JobId>, id: JobId, p: seq<JobId>)
    requires e.Keys <= jobs + {id} && IsLasso(e, p)
    ensures ReachesCycle(e, jobs) || Edge(e, id, id)
  {
    assert StepAt(e, p, 1);
    if p[0] !in jobs {
      assert p[0] == id;
      if |p| == 2 {
        assert p[1] == id;
      } else {
        assert StepAt(e, p, 2);
        if p[1] == id {
        } else {
          CycleThrough(e, jobs, id, p);
        }
      }
    }
  }

  /** The vertex after `id` is a job: the rest of the lasso, continued once around, starts there. */
  lemma CycleThrough(e: Edges, jobs: set<JobId>, id: JobId, p: seq<JobId>)
    requires e.Keys <= jobs + {id} && IsLasso(e, p) && p[0] == id && |p| > 2 && p[1] in jobs
    ensures ReachesCycle(e, jobs)
  {
    var n := |p| - 1;
    var k :| 0 <= k < n && p[k] == p[n];
    PathSuffix(e, p, 1);
    var q := p[1..];
    if k > 0 {
      assert q[|q| - 1] == q[..|q| - 1][k - 1];
      assert IsLasso(e, q);
    } else {
      assert StepAt(e, p, 1);
      PathExtend(e, q, p[1]);
      var r := q + [p[1]];
      assert r[|r| - 1] == r[..|r| - 1][0];
      assert IsLasso(e, r);
    }
  }

  lemma SameMirror(deps: Edges, rdeps: Edges, deps': Edges, rdeps': Edges)
    requires Mirror(deps, rdeps) && SameEdges(deps, deps') && SameEdges(rdeps, rdeps')
    ensures Mirror(deps', rdeps')
  {
    forall a, b
      ensures multiset(Targets(deps', a))[b] == multiset(Targets(rdeps', b))[a]
    {
      assert multiset(Targets(deps, a))[b] == multiset(Targets(rdeps, b))[a];
    }
  }

  lemma SameAcyclic(e: Edges, f: Edges)
    requires SameEdges(e, f) && Acyclic(e)
    ensures Acyclic(f)
  {
    FewerEdgesAcyclic(f, e);
  }

  // ---------------------------------------------------------------- cycles and add_job

  /** A new job that lists itself closes a loop that no search from the old jobs can see. */
  lemma HiddenLoop(deps: Edges, rdeps: Edges, jobs: set<JobId>, id: JobId, list: seq<JobId>)
    requires Mirror(deps, rdeps) && deps.Keys <= jobs && id !in jobs && Acyclic(deps)
    requires id in list && Targets(rdeps, id) == []
    ensures !ReachesCycle(AddTargets(deps, id, list), jobs) && !Acyclic(AddTargets(deps, id, list))
  {
    var e := AddTargets(deps, id, list);
    assert Edge(e, id, id);
    var loop := [id, id];
    assert StepAt(e, loop, 1);
    assert IsLasso(e, loop);
    if ReachesCycle(e, jobs) {
      var p :| IsLasso(e, p) && p[0] in jobs;
      OldLasso(deps, rdeps, jobs, id, list, p);
    }
  }

  /** A lasso that starts outside `id` never enters it, so it was there before. */
  lemma OldLasso(deps: Edges, rdeps: Edges, jobs: set<JobId>, id: JobId, list: seq<JobId>, p: seq<JobId>)
    requires Mirror(deps, rdeps) && Targets(rdeps, id) == []
    requires IsLasso(AddTargets(deps, id, list), p) && p[0] != id
    ensures IsLasso(deps, p)
  {
    forall i: nat | 0 < i < |p|
      ensures StepAt(deps, p, i)
    {
      NeverEnters(deps, rdeps, jobs, id, list, p, i - 1);
      assert StepAt(AddTargets(deps, id, list), p, i);
    }
  }

  lemma {:induction false} NeverEnters(deps: Edges, rdeps: Edges, jobs: set<JobId>, id: JobId,
                                       list: seq<JobId>, p: seq<JobId>, k: nat)
    requires Mirror(deps, rdeps) && Targets(rdeps, id) == []
    requires IsPath(AddTargets(deps, id, list), p) && p[0] != id && k < |p|
    ensures p[k] != id
  {
    if k > 0 {
      NeverEnters(deps, rdeps, jobs, id, list, p, k - 1);
      assert StepAt(AddTargets(deps, id, list), p, k);
      MirrorEdge(deps, rdeps, p[k - 1], id);
    }
  }

  /** Otherwise a search from the old jobs sees every cycle the new job closes. */
  lemma NoHiddenCycle(deps: Edges, rdeps: Edges, jobs: set<JobId>, id: JobId, list: seq<JobId>)
    requires Mirror(deps, rdeps) && deps.Keys <= jobs && id !in jobs
    requires !(id in list && Targets(rdeps, id) == []) && !ReachesCycle(AddTargets(deps, id, list), jobs)
    ensures Acyclic(AddTargets(deps, id, list))
  {
    var e := AddTargets(deps, id, list);
    forall p
      ensures !IsLasso(e, p)
    {
      if IsLasso(e, p) {
        LassoFromJob(e, jobs, id, p);
        assert Edge(e, id, id) && Targets(rdeps, id) != [];
        var v := Targets(rdeps, id)[0];
        MirrorEdge(deps, rdeps, v, id);
        SeenLoop(e, jobs, v, id);
      }
    }
  }

  lemma SeenLoop(e: Edges, jobs: set<JobId>, v: JobId, id: JobId)
    requires v in jobs && Edge(e, v, id) && Edge(e, id, id)
    ensures ReachesCycle(e, jobs)
  {
    var q := [v, id, id];
    assert StepAt(e, q, 1) && StepAt(e, q, 2);
    assert q[|q| - 1] == q[..|q| - 1][1];
    assert IsLasso(e, q);
  }

  /** Exactly when `add_job` with cycle detection keeps an acyclic graph acyclic. */
  lemma AddJobAcyclicIff(deps: Edges, rdeps: Edges, jobs: set<JobId>, id: JobId, list: seq<JobId>, after: Edges)
    requires Mirror(deps, rdeps) && deps.Keys <= jobs && id !in jobs && Acyclic(deps)
    requires if ReachesCycle(AddTargets(deps, id, list), jobs) then SameEdges(deps, after)
             else after == AddTargets(deps, id, list)
    ensures Acyclic(after) <==> !(id in list && Targets(rdeps, id) == [])
  {
    if id in list && Targets(rdeps, id) == [] {
      HiddenLoop(deps, rdeps, jobs, id, list);
    } else if ReachesCycle(AddTargets(deps, id, list), jobs) {
      SameAcyclic(deps, after);
    } else {
      NoHiddenCycle(deps, rdeps, jobs, id, list);
    }
  }

  /** A cycle closed by an edge between two jobs is seen. */
  lemma EdgeAcyclic(deps: Edges, jobs: set<JobId>, a: JobId, b: JobId)
    requires deps.Keys <= jobs && a in jobs && !ReachesCycle(PushEdge(deps, a, b), jobs)
    ensures Acyclic(PushEdge(deps, a, b))
  {
    var e := PushEdge(deps, a, b);
    forall p
      ensures !IsLasso(e, p)
    {
      if IsLasso(e, p) {
        LassoStart(e, p);
      }
    }
  }

  lemma LassoStart(e: Edges, p: seq<JobId>)
    requires IsLasso(e, p)
    ensures p[0] in e.Keys
  {
    assert StepAt(e, p, 1);
  }

  // ---------------------------------------------------------------- sequences of edits

  /** The maps mirror each other and only jobs have dependencies. */
  ghost predicate NetOk(n: Net) {
    Mirror(n.deps, n.rdeps) && n.deps.Keys <= n.jobs.Keys
  }

  /** A rejected edit: the same jobs and the same edges in the same order. */
  ghost predicate Rejected(before: Net, after: Net) {
    after.jobs == before.jobs && SameEdges(before.deps, after.deps) && SameEdges(before.rdeps, after.rdeps)
    && after.deps.Keys <= before.jobs.Keys
  }

  /** With detection on, an edit that would let a job reach a cycle is refused. */
  ghost predicate Refused(c: Config, n: Net, deps: Edges) {
    c.detectCycles && ReachesCycle(deps, n.jobs.Keys)
  }

  ghost predicate Edited(c: Config, before: Net, edit: Edit, after: Net) {
    match edit
    case AddJob(id, list) =>
      var deps := AddTargets(before.deps, id, list);
      && id !in before.jobs
      && (if Refused(c, before, deps) then Rejected(before, after)
          else after == Net(before.jobs[id := Pending], deps, AddSources(before.rdeps, id, list)))
    case AddDependency(a, b) =>
      var deps := PushEdge(before.deps, a, b);
      if a !in before.jobs || b !in before.jobs || Refused(c, before, deps) then Rejected(before, after)
      else after == Net(before.jobs, deps, PushEdge(before.rdeps, b, a))
    case RemoveJob(id) =>
      if id !in before.jobs || before.jobs[id] == Running then after == before
      else after == Net(before.jobs - {id}, Dropped(before.deps, id), Dropped(before.rdeps, id))
  }

  /** A new job that lists itself and that no job waits for yet: its loop goes unseen. */
  predicate HidesLoop(n: Net, edit: Edit) {
    edit.AddJob? && edit.id in edit.list && Targets(n.rdeps, edit.id) == []
  }

  // What each edit does to the jobs and, edge by edge, to the dependencies; a refused one does nothing.

  lemma AddJobCounts(c: Config, before: Net, id: JobId, list: seq<JobId>, after: Net, a: JobId, b: JobId)
    requires Edited(c, before, AddJob(id, list), after)
    ensures var refused := Refused(c, before, AddTargets(before.deps, id, list));
            && after.jobs == (if refused then before.jobs else before.jobs[id := Pending])
            && Multiplicity(after.deps, a, b)
               == Multiplicity(before.deps, a, b) + if a == id && !refused then multiset(list)[b] else 0
  {
    hide ReachesCycle;
    AddedCounts(before.deps, id, list, a, b);
    hide AddTargets;
  }

  lemma AddDependencyCounts(c: Config, before: Net, x: JobId, y: JobId, after: Net, a: JobId, b: JobId)
    requires Edited(c, before, AddDependency(x, y), after)
    ensures var refused := x !in before.jobs || y !in before.jobs || Refused(c, before, PushEdge(before.deps, x, y));
            && after.jobs == before.jobs
            && Multiplicity(after.deps, a, b)
               == Multiplicity(before.deps, a, b) + if a == x && b == y && !refused then 1 else 0
  {
    hide ReachesCycle;
    PushCounts(before.deps, x, y, a, b);
    hide PushEdge;
  }

  lemma RemoveJobCounts(c: Config, before: Net, id: JobId, after: Net, a: JobId, b: JobId)
    requires Edited(c, before, RemoveJob(id), after)
    ensures var refused := id !in before.jobs || before.jobs[id] == Running;
            && after.jobs == (if refused then before.jobs else before.jobs - {id})
            && Multiplicity(after.deps, a, b)
               == if (a == id || b == id) && !refused then 0 else Multiplicity(before.deps, a, b)
  {
    DroppedCounts(before.deps, id, a, b);
    hide Dropped;
  }

  lemma AddedCounts(e: Edges, id: JobId, list: seq<JobId>, a: JobId, b: JobId)
    ensures Multiplicity(AddTargets(e, id, list), a, b)
            == Multiplicity(e, a, b) + if a == id then multiset(list)[b] else 0
  {
  }

  lemma EditKeepsMirror(c: Config, before: Net, edit: Edit, after: Net)
    requires NetOk(before) && Edited(c, before, edit, after)
    ensures NetOk(after)
  {
    hide Mirror, ReachesCycle, SameEdges;
    match edit
    case AddJob(id, list) =>
      if Refused(c, before, AddTargets(before.deps, id, list)) {
        SameMirror(before.deps, before.rdeps, after.deps, after.rdeps);
      } else {
        MirrorAdded(before.deps, before.rdeps, id, list);
      }
    case AddDependency(a, b) =>
      if Rejected(before, after) {
        SameMirror(before.deps, before.rdeps, after.deps, after.rdeps);
      } else {
        MirrorPush(before.deps, before.rdeps, a, b);
      }
    case RemoveJob(id) => MirrorDropped(before.deps, before.rdeps, id);
  }

  /** With detection on, an edit keeps an acyclic graph acyclic exactly when it hides no loop. */
  lemma EditKeepsAcyclicIff(c: Config, before: Net, edit: Edit, after: Net)
    requires c.detectCycles && NetOk(before) && Acyclic(before.deps) && Edited(c, before, edit, after)
    ensures Acyclic(after.deps) <==> !HidesLoop(before, edit)
  {
    hide Mirror, ReachesCycle, SameEdges, Acyclic;
    match edit
    case AddJob(id, list) =>
      AddJobAcyclicIff(before.deps, before.rdeps, before.jobs.Keys, id, list, after.deps);
    case AddDependency(a, b) =>
      if Rejected(before, after) {
        SameAcyclic(before.deps, after.deps);
      } else {
        EdgeAcyclic(before.deps, before.jobs.Keys, a, b);
      }
    case RemoveJob(id) => DroppedAcyclic(before.deps, id);
  }

  ghost predicate IsEditing(c: Config, nets: seq<Net>, edits: seq<Edit>) {
    && |nets| == |edits| + 1 && nets[0] == Net(map[], map[], map[])
    && forall i :: 0 <= i < |edits| ==> Edited(c, nets[i], edits[i], nets[i + 1])
  }

  /** Every sequence of edits of a new scheduler keeps the maps mirror images. */
  lemma {:induction false} EditsKeepMirror(c: Config, nets: seq<Net>, edits: seq<Edit>, i: nat)
    requires IsEditing(c, nets, edits) && i <= |edits|
    ensures NetOk(nets[i])
  {
    if i > 0 {
      EditsKeepMirror(c, nets, edits, i - 1);
      EditKeepsMirror(c, nets[i - 1], edits[i - 1], nets[i]);
    }
  }

  /** With detection on it stays acyclic all the way exactly when no edit hides a loop. */
  lemma {:induction false} EditsStayAcyclicIff(c: Config, nets: seq<Net>, edits: seq<Edit>, n: nat)
    requires c.detectCycles && IsEditing(c, nets, edits) && n <= |edits|
    ensures (forall i :: 0 <= i <= n ==> Acyclic(nets[i].deps))
            <==> (forall i :: 0 <= i < n ==> !HidesLoop(nets[i], edits[i]))
  {
    hide Edited, Acyclic, NetOk, HidesLoop;
    if n == 0 {
      EmptyAcyclic();
    } else {
      EditsStayAcyclicIff(c, nets, edits, n - 1);
      EditsKeepMirror(c, nets, edits, n - 1);
      if Acyclic(nets[n - 1].deps) {
        EditKeepsAcyclicIff(c, nets[n - 1], edits[n - 1], nets[n]);
      }
    }
  }

  lemma EmptyAcyclic()
    ensures Acyclic(map[])
  {
    forall p
      ensures !IsLasso(map[], p)
    {
      if IsLasso(map[], p) {
        LassoStart(map[], p);
      }
    }
  }
}
