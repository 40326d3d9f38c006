/**
  The DAG scheduler: two adjacency maps and the job table, changed in place by the graph
  edits and by the locked sections of an execution.  Every method is tied to the edit
  (`DagEdits`) or the step (`DagRuns`) whose properties are proved there.
 */
module DagScheduler {
  import opened DagGraph
  import opened DagModel
  import opened DagEdits
  import Runs = DagRuns
  import Search = DagSearch

  const INVALID_JOB_ID: JobId := 0

  datatype Result = Ok | JobInvalid | InvalidArgument | AlreadyRunning

  // ---------------------------------------------------------------- add_job and its rollback

  /** `now` is `was` with some copies of `id` put into the lists. */
  ghost predicate Tagged(was: Edges, now: Edges, id: JobId) {
    forall b :: Without(Targets(now, b), id) == Targets(was, b)
  }

  ghost predicate SameOutside(was: Edges, now: Edges, list: seq<JobId>) {
    forall b :: b !in list ==> Targets(now, b) == Targets(was, b)
  }

  lemma NotYetTagged(deps: Edges, rdeps: Edges, id: JobId)
    requires Mirror(deps, rdeps) && id !in deps
    ensures Tagged(rdeps, rdeps, id)
  {
    forall b
      ensures Without(Targets(rdeps, b), id) == Targets(rdeps, b)
    {
      MirrorEdge(deps, rdeps, id, b);
      WithoutAbsent(Targets(rdeps, b), id);
    }
  }

  lemma TagOne(was: Edges, now: Edges, id: JobId, dep: JobId)
    requires Tagged(was, now, id)
    ensures Tagged(was, PushEdge(now, dep, id), id)
  {
    WithoutMore(Targets(now, dep), id);
    assert Without(Targets(now, dep), id) == Targets(was, dep);
    forall b
      ensures Without(Targets(PushEdge(now, dep, id), b), id) == Targets(was, b)
    {
      assert Without(Targets(now, b), id) == Targets(was, b);
    }
  }

  lemma UntagOne(was: Edges, now: Edges, id: JobId, dep: JobId)
    requires Tagged(was, was, id) && Tagged(was, now, id)
    ensures Tagged(was, now[dep := Without(Targets(now, dep), id)], id)
    ensures Without(Targets(now, dep), id) == Targets(was, dep)
  {
    assert Without(Targets(now, dep), id) == Targets(was, dep);
    assert Without(Targets(was, dep), id) == Targets(was, dep);
    forall b
      ensures Without(Targets(now[dep := Without(Targets(now, dep), id)], b), id) == Targets(was, b)
    {
      assert Without(Targets(now, b), id) == Targets(was, b);
    }
  }

  // ---------------------------------------------------------------- promotion

  lemma PromoteOne(jobs: Jobs, deps: Edges, among: set<JobId>, id: JobId)
    ensures var now := Promoted(jobs, deps, among);
            && (id in jobs && now[id] == Pending && Satisfied(now, deps, id) ==>
                  now[id := Ready] == Promoted(jobs, deps, among + {id}))
            && (!(id in jobs && now[id] == Pending && Satisfied(now, deps, id)) ==>
                  now == Promoted(jobs, deps, among + {id}))
  {
    var now := Promoted(jobs, deps, among);
    assert Satisfied(now, deps, id) <==> Satisfied(jobs, deps, id) by {
      assert forall d :: d in jobs ==> (now[d] == Completed <==> jobs[d] == Completed);
    }
  }

  lemma PromoteNone(jobs: Jobs, deps: Edges)
    ensures Promoted(jobs, deps, {}) == jobs
  {
  }

  lemma PrefixElements(s: seq<JobId>, k: nat)
    requires k < |s|
    ensures Elements(s[..k + 1]) == Elements(s[..k]) + {s[k]}
  {
    assert s[..k + 1] == s[..k] + [s[k]];
  }

  // ---------------------------------------------------------------- skip_dependents / cancel_dependents

  /** The breadth-first marking of everything doomed by `id`, with `queue` still to visit. */
  ghost predicate Marking(was: Jobs, now: Jobs, rdeps: Edges, id: JobId, mark: JobState, queue: seq<JobId>) {
    && MarkedSome(was, now, rdeps, id, mark)
    && QueueDoomed(was, rdeps, id, queue)
    && Closed(was, now, rdeps, id, mark, queue)
  }

  ghost predicate MarkedSome(was: Jobs, now: Jobs, rdeps: Edges, id: JobId, mark: JobState) {
    && now.Keys == was.Keys
    && forall x :: x in was && now[x] != was[x] ==> now[x] == mark && Doomed(was, rdeps, id, x)
  }

  ghost predicate QueueDoomed(was: Jobs, rdeps: Edges, id: JobId, queue: seq<JobId>) {
    forall y :: y in queue && y in was && Open(was[y]) ==> Doomed(was, rdeps, id, y)
  }

  ghost predicate Closed(was: Jobs, now: Jobs, rdeps: Edges, id: JobId, mark: JobState, queue: seq<JobId>)
    requires now.Keys == was.Keys
  {
    forall x, y {:trigger Edge(rdeps, x, y)} ::
      (x == id || (x in was && now[x] != was[x])) && Edge(rdeps, x, y) && y in was && Open(was[y])
      ==> now[y] == mark || y in queue
  }

  lemma MarkingStart(jobs: Jobs, rdeps: Edges, id: JobId, mark: JobState)
    ensures Marking(jobs, jobs, rdeps, id, mark, Targets(rdeps, id))
  {
    forall y | y in Targets(rdeps, id) && y in jobs && Open(jobs[y])
      ensures Doomed(jobs, rdeps, id, y)
    {
      assert Edge(rdeps, id, y);
      Runs.DoomSpreads(jobs, rdeps, id, id, y);
    }
  }

  lemma MarkingSkip(was: Jobs, now: Jobs, rdeps: Edges, id: JobId, mark: JobState, queue: seq<JobId>)
    requires Marking(was, now, rdeps, id, mark, queue) && queue != []
    requires queue[0] in was ==> !Open(now[queue[0]])
    ensures Marking(was, now, rdeps, id, mark, queue[1..])
  {
    assert forall y :: y in queue ==> y == queue[0] || y in queue[1..];
  }

  lemma MarkingStep(was: Jobs, now: Jobs, rdeps: Edges, id: JobId, mark: JobState, queue: seq<JobId>)
    requires Marking(was, now, rdeps, id, mark, queue) && queue != [] && !Open(mark)
    requires queue[0] in was && Open(now[queue[0]])
    ensures Marking(was, now[queue[0] := mark], rdeps, id, mark, queue[1..] + Targets(rdeps, queue[0]))
  {
    var x := queue[0];
    var now', queue' := now[x := mark], queue[1..] + Targets(rdeps, x);
    assert Open(was[x]) && Doomed(was, rdeps, id, x);
    assert forall y :: y in queue ==> y == x || y in queue';
    forall y | y in queue' && y in was && Open(was[y])
      ensures Doomed(was, rdeps, id, y)
    {
      if y in Targets(rdeps, x) {
        assert Edge(rdeps, x, y);
        Runs.DoomSpreads(was, rdeps, id, x, y);
      } else {
        assert y in queue;
      }
    }
  }

  lemma {:induction false} ClosedMarks(was: Jobs, now: Jobs, rdeps: Edges, id: JobId, mark: JobState,
                                       p: seq<JobId>, k: nat)
    requires now.Keys == was.Keys && Closed(was, now, rdeps, id, mark, []) && !Open(mark)
    requires DoomPath(was, rdeps, p) && p[0] == id && 0 < k < |p|
    ensures now[p[k]] == mark
  {
    assert StepAt(rdeps, p, k);
    if k > 1 {
      ClosedMarks(was, now, rdeps, id, mark, p, k - 1);
    }
    assert Edge(rdeps, p[k - 1], p[k]);
  }

  lemma MarkingDone(was: Jobs, now: Jobs, rdeps: Edges, id: JobId, mark: JobState)
    requires Marking(was, now, rdeps, id, mark, []) && !Open(mark)
    ensures now == Marked(was, rdeps, id, mark)
  {
    forall x | x in was && Doomed(was, rdeps, id, x)
      ensures now[x] == mark
    {
      var p :| DoomPath(was, rdeps, p) && p[0] == id && p[|p| - 1] == x;
      ClosedMarks(was, now, rdeps, id, mark, p, |p| - 1);
    }
  }

  ghost function OpenJobs(jobs: Jobs): set<JobId> {
    set x | x in jobs && Open(jobs[x])
  }

  /** Erases `id` from every list of the map. */
  method DropFromAll(e: Edges, id: JobId) returns (e': Edges)
    ensures e' == Dropped(e, id)
  {
    e' := e - {id};
    var rest := e'.Keys;
    while rest != {}
      invariant rest <= e'.Keys && e'.Keys == e.Keys - {id}
      invariant forall a :: a in e' ==> e'[a] == if a in rest then e[a] else Without(e[a], id)
      decreases rest
    {
      var a :| a in rest;
      e' := e'[a := Without(e'[a], id)];
      rest := rest - {a};
    }
  }

  class Scheduler {
    const config: Config
    var jobs: Jobs
    var dependencies: Edges
    var dependents: Edges
    var retryCounts: map<JobId, nat>
    var runningCount: int
    var executing: bool
    var cancelled: bool

    constructor (c: Config)
      ensures config == c && Net() == DagEdits.Net(map[], map[], map[]) && Runs.Initial(State())
    {
      config := c;
      jobs, dependencies, dependents, retryCounts := map[], map[], map[], map[];
      runningCount, executing, cancelled := 0, false, false;
    }

    /** What the edits work on. */
    ghost function Net(): Net
      reads this
    {
      DagEdits.Net(jobs, dependencies, dependents)
    }

    /** What an execution works on, seen while no other call is in progress. */
    ghost function State(): Runs.Exec
      reads this
    {
      Runs.Exec(jobs, retryCounts, runningCount, executing, cancelled, [])
    }

    ghost function Graph(): Runs.Graph
      reads this
    {
      Runs.Graph(dependencies, dependents)
    }

    // -------------------------------------------------------------- edits

    method AddJob(id: JobId, list: seq<JobId>) returns (r: JobId)
      requires NetOk(Net()) && id !in jobs && id != INVALID_JOB_ID
      modifies this`jobs, this`dependencies, this`dependents
      ensures Edited(config, old(Net()), Edit.AddJob(id, list), Net()) && NetOk(Net())
      ensures r == if id in jobs then id else INVALID_JOB_ID
      ensures id !in jobs <==> Refused(config, old(Net()), AddTargets(old(dependencies), id, list))
    {
      hide Mirror, Tagged, ReachesCycle, PushEdge;
      ghost var before := Net();
      NotYetTagged(dependencies, dependents, id);
      AddEdges(id, list);
      var cyclic := false;
      if config.detectCycles {
        cyclic := Search.DetectCycle(dependencies, jobs.Keys);
      }
      if cyclic {
        RollBack(before, id, list);
        EditKeepsMirror(config, before, Edit.AddJob(id, list), Net());
        return INVALID_JOB_ID;
      }
      jobs := jobs[id := Pending];
      EditKeepsMirror(config, before, Edit.AddJob(id, list), Net());
      r := id;
    }

    /** The first loop of `add_job`: both directions of every listed edge. */
    method AddEdges(id: JobId, list: seq<JobId>)
      requires NetOk(Net()) && id !in jobs && Tagged(dependents, dependents, id)
      modifies this`dependencies, this`dependents
      ensures dependencies == AddTargets(old(dependencies), id, list)
      ensures dependents == AddSources(old(dependents), id, list)
      ensures Tagged(old(dependents), dependents, id) && SameOutside(old(dependents), dependents, list)
    {
      hide Mirror, Tagged, AddTargets, AddSources;
      EmptyList(dependencies, dependents, id);
      assert list[..0] == [];
      for k := 0 to |list|
        invariant dependencies == AddTargets(old(dependencies), id, list[..k])
        invariant dependents == AddSources(old(dependents), id, list[..k])
        invariant Tagged(old(dependents), dependents, id)
        invariant SameOutside(old(dependents), dependents, list[..k])
      {
        AddOne(old(dependencies), id, list, k);
        AddOneSource(old(dependents), id, list, k);
        TagOne(old(dependents), dependents, id, list[k]);
        dependencies := PushEdge(dependencies, id, list[k]);
        dependents := PushEdge(dependents, list[k], id);
        assert list[..k + 1] == list[..k] + [list[k]];
      }
      assert list[..|list|] == list;
    }

    /** The rollback of `add_job`. */
    method RollBack(ghost before: Net, id: JobId, list: seq<JobId>)
      requires NetOk(before) && id !in before.jobs && jobs == before.jobs
      requires dependencies == AddTargets(before.deps, id, list)
      requires Tagged(before.rdeps, before.rdeps, id) && Tagged(before.rdeps, dependents, id)
      requires SameOutside(before.rdeps, dependents, list)
      modifies this`dependencies, this`dependents
      ensures Rejected(before, Net()) && dependencies == before.deps
    {
      hide Mirror, Tagged;
      dependencies := dependencies - {id};
      assert dependencies == before.deps;
      for k := 0 to |list|
        invariant Tagged(before.rdeps, dependents, id) && dependencies == before.deps
        invariant SameOutside(before.rdeps, dependents, list[k..])
      {
        UntagOne(before.rdeps, dependents, id, list[k]);
        dependents := dependents[list[k] := Without(Targets(dependents, list[k]), id)];
        assert list[k..] == [list[k]] + list[k + 1..];
      }
    }

    method AddDependency(dependent: JobId, dependency: JobId) returns (r: Result)
      requires NetOk(Net())
      modifies this`dependencies, this`dependents
      ensures Edited(config, old(Net()), Edit.AddDependency(dependent, dependency), Net()) && NetOk(Net())
      ensures r.JobInvalid? <==> dependent !in jobs || dependency !in jobs
      ensures r.InvalidArgument? <==>
                dependent in jobs && dependency in jobs
                && Refused(config, old(Net()), PushEdge(old(dependencies), dependent, dependency))
      ensures r.Ok? || r.JobInvalid? || r.InvalidArgument?
    {
      hide Mirror, ReachesCycle;
      ghost var before := Net();
      ghost var edit := Edit.AddDependency(dependent, dependency);
      if dependent !in jobs || dependency !in jobs {
        return JobInvalid;
      }
      dependencies := PushEdge(dependencies, dependent, dependency);
      dependents := PushEdge(dependents, dependency, dependent);
      var cyclic := false;
      if config.detectCycles {
        cyclic := Search.DetectCycle(dependencies, jobs.Keys);
      }
      if cyclic {
        var d, r := dependencies[dependent], dependents[dependency];
        dependencies := dependencies[dependent := d[..|d| - 1]];
        dependents := dependents[dependency := r[..|r| - 1]];
        assert Rejected(before, Net());
        EditKeepsMirror(config, before, edit, Net());
        return InvalidArgument;
      }
      EditKeepsMirror(config, before, edit, Net());
      r := Ok;
    }

    method RemoveJob(id: JobId) returns (r: Result)
      requires NetOk(Net())
      modifies this`jobs, this`dependencies, this`dependents
      ensures Edited(config, old(Net()), Edit.RemoveJob(id), Net()) && NetOk(Net())
      ensures r == if id in old(jobs) && old(jobs)[id] != Running then Ok else JobInvalid
    {
      hide Mirror;
      ghost var before := Net();
      if id !in jobs || jobs[id] == Running {
        return JobInvalid;
      }
      dependencies := DropFromAll(dependencies, id);
      dependents := DropFromAll(dependents, id);
      jobs := jobs - {id};
      EditKeepsMirror(config, before, Edit.RemoveJob(id), Net());
      r := Ok;
    }

    // -------------------------------------------------------------- execution

    method AreSatisfied(id: JobId) returns (r: bool)
      ensures r <==> Satisfied(jobs, dependencies, id)
    {
      if id !in dependencies {
        return true;
      }
      var deps := dependencies[id];
      for k := 0 to |deps|
        invariant forall j :: 0 <= j < k ==> deps[j] in jobs && jobs[deps[j]] == Completed
      {
        if deps[k] !in jobs || jobs[deps[k]] != Completed {
          return false;
        }
      }
      r := true;
    }

    /** The locked section of `execute_all`. */
    method StartExecution() returns (r: Result)
      modifies this`jobs, this`executing, this`cancelled
      ensures r == if old(executing) then AlreadyRunning else Ok
      ensures old(executing) ==> State() == old(State())
      ensures !old(executing) ==>
                State() == Runs.After(Graph(), config, old(State()), Runs.Start).(frames := [])
    {
      if executing {
        return AlreadyRunning;
      }
      executing, cancelled := true, false;
      var rest, done: set<JobId> := jobs.Keys, {};
      PromoteNone(jobs, dependencies);
      while rest != {}
        invariant done + rest == jobs.Keys && jobs.Keys == old(jobs.Keys) && executing && !cancelled
        invariant jobs == Promoted(old(jobs), dependencies, done)
        decreases rest
      {
        var id :| id in rest;
        PromoteOne(old(jobs), dependencies, done, id);
        PromoteJob(id);
        rest, done := rest - {id}, done + {id};
      }
      r := Ok;
    }

    /** A pending job whose dependencies are satisfied becomes ready. */
    method PromoteJob(id: JobId)
      modifies this`jobs
      ensures jobs == if id in old(jobs) && old(jobs)[id] == Pending && Satisfied(old(jobs), dependencies, id)
                      then old(jobs)[id := Ready] else old(jobs)
    {
      if id in jobs && jobs[id] == Pending {
        var ok := AreSatisfied(id);
        if ok {
          jobs := jobs[id := Ready];
        }
      }
    }

    /** The locked section of `execute_job`. */
    method ExecuteJob(id: JobId) returns (launched: bool)
      modifies this`jobs, this`runningCount
      ensures launched <==> id in old(jobs) && old(jobs)[id] == Ready
      ensures State() == Runs.LaunchStep(old(State()).(frames := [Runs.Launching([id])]), 0, false).(frames := [])
    {
      if id !in jobs || jobs[id] != Ready {
        return false;
      }
      jobs := jobs[id := Running];
      runningCount := runningCount + 1;
      launched := true;
    }

    method OnJobCompleted(id: JobId)
      modifies this`jobs, this`runningCount
      ensures id !in old(jobs) ==> State() == old(State())
      ensures id in old(jobs) ==>
                jobs == AfterCompleted(old(jobs), dependencies, dependents, id) && runningCount == old(runningCount) - 1
      ensures id in old(jobs) && old(jobs)[id] == Running ==>
                State() == Runs.After(Graph(), config, old(State()), Runs.Succeed(id)).(frames := [])
    {
      if id !in jobs {
        return;
      }
      jobs := jobs[id := Completed];
      runningCount := runningCount - 1;
      ghost var was := jobs;
      PromoteNone(jobs, dependencies);
      if id in dependents {
        var list := dependents[id];
        assert Elements(list[..0]) == {};
        for k := 0 to |list|
          invariant jobs == Promoted(was, dependencies, Elements(list[..k]))
          invariant runningCount == old(runningCount) - 1
        {
          PromoteOne(was, dependencies, Elements(list[..k]), list[k]);
          PrefixElements(list, k);
          PromoteJob(list[k]);
        }
        assert list[..|list|] == list;
      } else {
        assert Elements(Targets(dependents, id)) == {};
      }
    }

    method OnJobFailed(id: JobId, fallbackOk: bool)
      modifies this`jobs, this`runningCount, this`retryCounts
      ensures id !in old(jobs) ==> State() == old(State())
      ensures id in old(jobs) ==>
                jobs == AfterFailed(old(jobs), dependents, id, HandlingOf(config, old(retryCounts), id, fallbackOk))
      ensures id in old(jobs) && old(jobs)[id] == Running ==>
                SameRetries(State(), Runs.After(Graph(), config, old(State()), Runs.Fail(id, fallbackOk)))
    {
      hide Marked;
      if id !in jobs {
        return;
      }
      if config.policy == Retry {
        // operator[] inserts a zero
        retryCounts := retryCounts[id := RetriesOf(retryCounts, id)];
        if retryCounts[id] < config.maxRetries {
          retryCounts := retryCounts[id := retryCounts[id] + 1];
          jobs := jobs[id := Ready];
          runningCount := runningCount - 1;
          return;
        }
      }
      if config.policy == Fallback && id in config.fallbacks && fallbackOk {
        jobs := jobs[id := Completed];
        runningCount := runningCount - 1;
        return;
      }
      jobs := jobs[id := Failed];
      runningCount := runningCount - 1;
      MarkDependents(id, if config.policy == ContinueOthers then Skipped else Cancelled);
    }

    /** `skip_dependents` and `cancel_dependents`: breadth first over the dependents. */
    method MarkDependents(id: JobId, mark: JobState)
      requires mark == Cancelled || mark == Skipped
      modifies this`jobs
      ensures jobs == Marked(old(jobs), dependents, id, mark)
    {
      hide Marking, Marked;
      MarkingStart(jobs, dependents, id, mark);
      var queue := Targets(dependents, id);
      while queue != []
        invariant Marking(old(jobs), jobs, dependents, id, mark, queue)
        decreases OpenJobs(jobs), |queue|
      {
        MarkingKeys(old(jobs), jobs, dependents, id, mark, queue);
        var current := queue[0];
        if current in jobs && Open(jobs[current]) {
          MarkingStep(old(jobs), jobs, dependents, id, mark, queue);
          assert current in OpenJobs(jobs);
          jobs := jobs[current := mark];
          queue := queue[1..] + Targets(dependents, current);
        } else {
          MarkingSkip(old(jobs), jobs, dependents, id, mark, queue);
          queue := queue[1..];
        }
      }
      MarkingDone(old(jobs), jobs, dependents, id, mark);
    }

    method CancelAll()
      modifies this`jobs, this`cancelled
      ensures State() == Runs.After(Graph(), config, old(State()), Runs.CancelAll)
    {
      cancelled := true;
      var rest := jobs.Keys;
      while rest != {}
        invariant rest <= jobs.Keys && jobs.Keys == old(jobs.Keys) && cancelled
        invariant forall x :: x in jobs ==>
                    jobs[x] == if x in rest then old(jobs)[x] else AllCancelled(old(jobs))[x]
        decreases rest
      {
        var id :| id in rest;
        if Open(jobs[id]) {
          jobs := jobs[id := Cancelled];
        }
        rest := rest - {id};
      }
    }

    method IsExecutionComplete() returns (r: bool)
      ensures r <==> Complete(jobs)
    {
      var rest := jobs.Keys;
      while rest != {}
        invariant rest <= jobs.Keys
        invariant forall x :: x in jobs && x !in rest ==> Terminal(jobs[x])
        decreases rest
      {
        var id :| id in rest;
        if !Terminal(jobs[id]) {
          return false;
        }
        rest := rest - {id};
      }
      r := true;
    }
  }

  lemma MarkingKeys(was: Jobs, now: Jobs, rdeps: Edges, id: JobId, mark: JobState, queue: seq<JobId>)
    requires Marking(was, now, rdeps, id, mark, queue)
    ensures now.Keys == was.Keys
  {
  }

  lemma AddOneSource(e: Edges, id: JobId, list: seq<JobId>, k: nat)
    requires k < |list|
    ensures PushEdge(AddSources(e, id, list[..k]), list[k], id) == AddSources(e, id, list[..k + 1])
  {
    assert list[..k + 1][..k] == list[..k];
  }

  lemma EmptyList(e: Edges, f: Edges, id: JobId)
    ensures AddTargets(e, id, []) == e && AddSources(f, id, []) == f
  {
  }

  /** The same state up to retry counts that are zero, which the lookup creates. */
  ghost predicate SameRetries(x: Runs.Exec, y: Runs.Exec) {
    && x == y.(retries := x.retries, frames := x.frames)
    && forall id :: RetriesOf(x.retries, id) == RetriesOf(y.retries, id)
  }
}
