/** Every run of the DAG scheduler over a sound graph ends with all jobs in a final state. */
module DagProgress {
  import opened DagGraph
  import opened DagModel
  import opened DagRuns
  import opened MapSums

  // ---------------------------------------------------------------- assumptions and invariant

  /** Dependencies are acyclic and present, and the two maps mirror each other. */
  ghost predicate Sound(g: Graph, jobs: Jobs) {
    && GraphOk(g) && Acyclic(g.deps)
    && forall a, b :: Edge(g.deps, a, b) ==> a in jobs && b in jobs
  }

  /** A fallback that succeeds completes its job without promoting the dependents. */
  ghost predicate Promotes(g: Graph, c: Config) {
    c.policy == Fallback ==> forall j :: j in c.fallbacks ==> Targets(g.rdeps, j) == []
  }

  /** The steps of workers and schedule calls. */
  predicate Working(a: Action) {
    a.Take? || a.Launch? || a.Succeed? || a.Fail?
  }

  /** A pending job still waits for something. */
  ghost predicate PendingOk(jobs: Jobs, deps: Edges) {
    forall j :: j in jobs && jobs[j] == Pending ==> !Satisfied(jobs, deps, j)
  }

  /** Some schedule call will still come to this job. */
  ghost predicate Expected(frames: seq<Frame>, j: JobId) {
    exists f :: 0 <= f < |frames| && (frames[f] == Snapshot || (frames[f].Launching? && j in frames[f].ids))
  }

  /** No ready job is forgotten. */
  ghost predicate ReadyOk(x: Exec) {
    forall j :: j in x.jobs && x.jobs[j] == Ready ==> Expected(x.frames, j)
  }

  ghost predicate Live(g: Graph, x: Exec) {
    Safe(g, x) && PendingOk(x.jobs, g.deps) && ReadyOk(x) && !x.cancelled
  }

  lemma PromotedPending(g: Graph, jobs: Jobs, among: set<JobId>)
    requires forall j :: j in jobs && jobs[j] == Pending && j !in among ==> !Satisfied(jobs, g.deps, j)
    ensures PendingOk(Promoted(jobs, g.deps, among), g.deps)
  {
    var jobs' := Promoted(jobs, g.deps, among);
    forall j | j in jobs' && jobs'[j] == Pending
      ensures !Satisfied(jobs', g.deps, j)
    {
      assert !Satisfied(jobs, g.deps, j);
    }
  }

  lemma StartIsLive(g: Graph, c: Config, x: Exec)
    requires GraphOk(g) && Initial(x)
    ensures Live(g, After(g, c, x, Start))
  {
    assert RunningJobs(x.jobs) == {};
    SafeStep(g, c, x, Start);
    PromotedPending(g, x.jobs, x.jobs.Keys);
    SnapshotExpects(After(g, c, x, Start));
  }

  /** A schedule call that has not taken its snapshot will come to every ready job. */
  lemma SnapshotExpects(x: Exec)
    requires |x.frames| > 0 && x.frames[|x.frames| - 1] == Snapshot
    ensures ReadyOk(x)
  {
  }

  /** Completing a job leaves no satisfied job pending if its dependents are promoted. */
  lemma CompletedPending(g: Graph, jobs: Jobs, id: JobId)
    requires GraphOk(g) && PendingOk(jobs, g.deps) && id in jobs && jobs[id] == Running
    ensures forall j :: j in jobs && jobs[j] == Pending && j !in Elements(Targets(g.rdeps, id)) ==>
              !Satisfied(jobs[id := Completed], g.deps, j)
  {
    var jobs' := jobs[id := Completed];
    forall j | j in jobs && jobs[j] == Pending && j !in Elements(Targets(g.rdeps, id))
      ensures !Satisfied(jobs', g.deps, j)
    {
      assert !Edge(g.rdeps, id, j);
      assert !Edge(g.deps, j, id);
      assert !Satisfied(jobs, g.deps, j);
    }
  }

  lemma FailPending(g: Graph, c: Config, x: Exec, id: JobId, ok: bool)
    requires GraphOk(g) && Promotes(g, c) && PendingOk(x.jobs, g.deps) && id in x.jobs && x.jobs[id] == Running
    ensures PendingOk(FailStep(g, c, x, id, ok).jobs, g.deps)
  {
    var how := HandlingOf(c, x.retries, id, ok);
    var jobs' := FailStep(g, c, x, id, ok).jobs;
    if how.FellBack? {
      CompletedPending(g, x.jobs, id);
    }
    forall j | j in jobs' && jobs'[j] == Pending
      ensures !Satisfied(jobs', g.deps, j)
    {
      if !how.FellBack? {
        NoneCompleted(g, x.jobs, id, how, j);
      }
    }
  }

  lemma NoneCompleted(g: Graph, jobs: Jobs, id: JobId, how: Handling, j: JobId)
    requires id in jobs && jobs[id] == Running && !how.FellBack? && (how.GiveUp? ==> how.mark != Completed)
    requires !Satisfied(jobs, g.deps, j)
    ensures !Satisfied(AfterFailed(jobs, g.rdeps, id, how), g.deps, j)
  {
    var d :| d in Targets(g.deps, j) && !(d in jobs && jobs[d] == Completed);
    var jobs' := AfterFailed(jobs, g.rdeps, id, how);
    assert !(d in jobs' && jobs'[d] == Completed);
  }

  lemma TakeReady(g: Graph, c: Config, x: Exec, f: nat, ids: seq<JobId>)
    requires ReadyOk(x) && Enabled(x, Take(f, ids)) && !x.cancelled
    ensures ReadyOk(After(g, c, x, Take(f, ids)))
  {
    var x' := After(g, c, x, Take(f, ids));
    forall j | j in x'.jobs && x'.jobs[j] == Ready
      ensures Expected(x'.frames, j)
    {
      assert j in Elements(ids);
      assert x'.frames[f] == Launching(ids);
    }
  }

  lemma LaunchReady(x: Exec, f: nat)
    requires ReadyOk(x) && Enabled(x, Launch(f, false))
    ensures ReadyOk(LaunchStep(x, f, false))
  {
    var x', ids := LaunchStep(x, f, false), x.frames[f].ids;
    forall j | j in x'.jobs && x'.jobs[j] == Ready
      ensures Expected(x'.frames, j)
    {
      assert Expected(x.frames, j);
      var h :| 0 <= h < |x.frames| && (x.frames[h] == Snapshot || (x.frames[h].Launching? && j in x.frames[h].ids));
      assert h == f ==> j in ids[1..];
      assert x'.frames[h] == Snapshot || (x'.frames[h].Launching? && j in x'.frames[h].ids);
    }
  }

  lemma LiveStep(g: Graph, c: Config, x: Exec, a: Action)
    requires GraphOk(g) && Promotes(g, c) && Live(g, x) && Enabled(x, a) && Working(a)
    ensures Live(g, After(g, c, x, a))
  {
    hide GraphOk, Safe, PendingOk, ReadyOk, Promotes;
    SafeStep(g, c, x, a);
    match a
    case Take(f, ids) => TakeReady(g, c, x, f, ids);
    case Launch(f, stop) =>
      LaunchReady(x, f);
      LaunchPending(g, x, f);
    case Succeed(id) =>
      CompletedPending(g, x.jobs, id);
      SucceedPending(g, x.jobs, id);
      SnapshotExpects(After(g, c, x, a));
    case Fail(id, ok) =>
      FailPending(g, c, x, id, ok);
      SnapshotExpects(After(g, c, x, a));
  }

  lemma SucceedPending(g: Graph, jobs: Jobs, id: JobId)
    requires id in jobs
    requires forall j :: j in jobs && jobs[j] == Pending && j !in Elements(Targets(g.rdeps, id)) ==>
               !Satisfied(jobs[id := Completed], g.deps, j)
    ensures PendingOk(AfterCompleted(jobs, g.deps, g.rdeps, id), g.deps)
  {
    PromotedPending(g, jobs[id := Completed], Elements(Targets(g.rdeps, id)));
  }

  lemma LaunchPending(g: Graph, x: Exec, f: nat)
    requires PendingOk(x.jobs, g.deps) && Enabled(x, Launch(f, false))
    ensures PendingOk(LaunchStep(x, f, false).jobs, g.deps)
  {
    var jobs' := LaunchStep(x, f, false).jobs;
    forall j | j in jobs' && jobs'[j] == Pending
      ensures !Satisfied(jobs', g.deps, j)
    {
      assert !Satisfied(x.jobs, g.deps, j);
    }
  }

  // ---------------------------------------------------------------- no deadlock

  /** As long as a job has not ended, some job is ready or running. */
  lemma NoDeadlock(g: Graph, x: Exec)
    requires Sound(g, x.jobs) && Live(g, x) && !Complete(x.jobs)
    ensures exists j :: j in x.jobs && (x.jobs[j] == Ready || x.jobs[j] == Running)
  {
    if forall j :: j in x.jobs ==> x.jobs[j] != Ready && x.jobs[j] != Running {
      var u := set j | j in x.jobs && x.jobs[j] == Pending;
      forall j | j in u
        ensures HasWayOn(g.deps, u, j)
      {
        WaitsForPending(g, x, j);
      }
      var j :| j in x.jobs && !Terminal(x.jobs[j]);
      StuckReachesCycle(g.deps, u, j);
    }
  }

  lemma WaitsForPending(g: Graph, x: Exec, j: JobId)
    requires Sound(g, x.jobs) && Live(g, x) && j in x.jobs && x.jobs[j] == Pending
    requires forall k :: k in x.jobs ==> x.jobs[k] != Ready && x.jobs[k] != Running
    ensures exists d :: d in x.jobs && x.jobs[d] == Pending && Edge(g.deps, j, d)
  {
    assert !Satisfied(x.jobs, g.deps, j);
    var d :| d in Targets(g.deps, j) && !(d in x.jobs && x.jobs[d] == Completed);
    assert Edge(g.deps, j, d) && Edge(g.rdeps, d, j);
    assert d in x.jobs;
    assert !Lost(x.jobs[d]);
  }

  /** A live state that is not complete has a step of a worker or of a schedule call. */
  lemma CanStep(g: Graph, x: Exec) returns (a: Action)
    requires Sound(g, x.jobs) && Live(g, x) && !Complete(x.jobs)
    ensures Working(a) && Enabled(x, a)
  {
    NoDeadlock(g, x);
    var j :| j in x.jobs && (x.jobs[j] == Ready || x.jobs[j] == Running);
    if x.jobs[j] == Running {
      a := Succeed(j);
    } else {
      assert Expected(x.frames, j);
      var f :| 0 <= f < |x.frames|
        && (x.frames[f] == Snapshot || (x.frames[f].Launching? && j in x.frames[f].ids));
      if x.frames[f] == Snapshot {
        var ids := Listing(set k | k in x.jobs && x.jobs[k] == Ready);
        a := Take(f, ids);
      } else {
        a := Launch(f, false);
      }
    }
  }

  lemma {:induction false} Listing(s: set<JobId>) returns (ids: seq<JobId>)
    ensures NoDuplicates(ids) && Elements(ids) == s
    decreases s
  {
    if s == {} {
      ids := [];
    } else {
      var k :| k in s;
      var rest := Listing(s - {k});
      ids := rest + [k];
      assert k !in Elements(rest) && Elements(ids) == Elements(rest) + {k};
    }
  }

  // ---------------------------------------------------------------- termination

  /** Remaining state changes of a job. */
  function Weight(c: Config, s: JobState, retries: nat): nat {
    var left := if retries < c.maxRetries then c.maxRetries - retries else 0;
    match s
    case Pending => 2 * left + 3
    case Ready => 2 * left + 2
    case Running => 2 * left + 1
    case _ => 0
  }

  function Weights(c: Config, x: Exec): map<JobId, nat> {
    map j | j in x.jobs :: Weight(c, x.jobs[j], RetriesOf(x.retries, j))
  }

  function CostOf(n: nat, f: Frame): nat {
    match f case Snapshot => n + 1 case Launching(ids) => |ids|
  }

  ghost function FrameCost(n: nat, frames: seq<Frame>): nat {
    if frames == [] then 0
    else FrameCost(n, frames[..|frames| - 1])
         + CostOf(n, frames[|frames| - 1])
  }

  /** The variant: every state change pays for the schedule call it triggers. */
  ghost function Measure(c: Config, x: Exec): nat {
    (|x.jobs| + 2) * Sum(Weights(c, x)) + FrameCost(|x.jobs|, x.frames)
  }

  lemma {:induction false} FrameReplaced(n: nat, frames: seq<Frame>, f: nat, frame: Frame)
    requires f < |frames|
    ensures FrameCost(n, frames[f := frame]) + CostOf(n, frames[f]) == FrameCost(n, frames) + CostOf(n, frame)
  {
    var k := |frames| - 1;
    var frames' := frames[f := frame];
    if f == k {
      assert frames'[..k] == frames[..k];
    } else {
      FrameReplaced(n, frames[..k], f, frame);
      assert frames'[..k] == frames[..k][f := frame];
    }
  }

  lemma FrameAdded(n: nat, frames: seq<Frame>)
    ensures FrameCost(n, frames + [Snapshot]) == FrameCost(n, frames) + n + 1
  {
    assert (frames + [Snapshot])[..|frames|] == frames;
  }

  lemma {:induction false} ListSize(ids: seq<JobId>, s: set<JobId>)
    requires NoDuplicates(ids) && Elements(ids) <= s
    ensures |ids| <= |s|
    decreases |ids|
  {
    if ids != [] {
      var n := |ids| - 1;
      assert Elements(ids[..n]) <= s - {ids[n]};
      ListSize(ids[..n], s - {ids[n]});
    }
  }

  /** A step that changes the states lowers every weight, and that of `id` strictly. */
  lemma WeightsFall(c: Config, x: Exec, x': Exec, id: JobId)
    requires x'.jobs.Keys == x.jobs.Keys && id in x.jobs
    requires forall j :: j in x.jobs ==>
               Weight(c, x'.jobs[j], RetriesOf(x'.retries, j)) <= Weight(c, x.jobs[j], RetriesOf(x.retries, j))
    requires Weight(c, x'.jobs[id], RetriesOf(x'.retries, id)) < Weight(c, x.jobs[id], RetriesOf(x.retries, id))
    ensures Sum(Weights(c, x')) < Sum(Weights(c, x))
  {
    SumBelow(Weights(c, x), Weights(c, x'), id);
  }

  lemma MeasureScales(n: nat, w: nat, w': nat, f: nat)
    requires w' < w
    ensures (n + 2) * w' + f + n + 1 < (n + 2) * w + f
  {
    MultipleGrows(n + 2, w', w - w');
  }

  lemma MultipleGrows(k: nat, a: nat, d: nat)
    requires d >= 1
    ensures k * (a + d) >= k * a + k
  {
    assert k * (a + d) == k * a + k * d;
    assert k * d == k + k * (d - 1);
  }

  lemma MeasureSinks(n: nat, w: nat, w': nat, f: nat, f': nat)
    requires w' <= w && f' < f
    ensures (n + 2) * w' + f' < (n + 2) * w + f
  {
    if w' < w {
      MultipleGrows(n + 2, w', w - w');
    }
  }

  lemma TakeFalls(g: Graph, c: Config, x: Exec, f: nat, ids: seq<JobId>)
    requires Enabled(x, Take(f, ids)) && !x.cancelled
    ensures Measure(c, After(g, c, x, Take(f, ids))) < Measure(c, x)
  {
    FrameReplaced(|x.jobs|, x.frames, f, Launching(ids));
    ListSize(ids, x.jobs.Keys);
    assert Weights(c, After(g, c, x, Take(f, ids))) == Weights(c, x);
  }

  lemma LaunchFalls(c: Config, x: Exec, f: nat)
    requires Enabled(x, Launch(f, false))
    ensures Measure(c, LaunchStep(x, f, false)) < Measure(c, x)
  {
    hide Weights, FrameCost, Sum;
    var x' := LaunchStep(x, f, false);
    LaunchWeights(c, x, f);
    FrameReplaced(|x.jobs|, x.frames, f, Launching(x.frames[f].ids[1..]));
    MeasureSinks(|x.jobs|, Sum(Weights(c, x)), Sum(Weights(c, x')),
                 FrameCost(|x.jobs|, x.frames), FrameCost(|x.jobs|, x'.frames));
  }

  lemma LaunchWeights(c: Config, x: Exec, f: nat)
    requires Enabled(x, Launch(f, false))
    ensures Sum(Weights(c, LaunchStep(x, f, false))) <= Sum(Weights(c, x))
    ensures |LaunchStep(x, f, false).jobs| == |x.jobs|
  {
    var x', id := LaunchStep(x, f, false), x.frames[f].ids[0];
    if id in x.jobs && x.jobs[id] == Ready {
      assert x'.jobs.Keys == x.jobs.Keys;
      assert |x'.jobs.Keys| == |x'.jobs|;
      WeightsFall(c, x, x', id);
    } else {
      assert Weights(c, x') == Weights(c, x);
    }
  }

  /** A report of a worker lowers the weights by more than the schedule call it adds. */
  lemma ReportFalls(c: Config, x: Exec, x': Exec, id: JobId)
    requires x'.jobs.Keys == x.jobs.Keys && id in x.jobs && x'.frames == x.frames + [Snapshot]
    requires Sum(Weights(c, x')) < Sum(Weights(c, x))
    ensures Measure(c, x') < Measure(c, x)
  {
    assert |x'.jobs| == |x.jobs| by { assert |x'.jobs.Keys| == |x.jobs.Keys|; }
    FrameAdded(|x.jobs|, x.frames);
    MeasureScales(|x.jobs|, Sum(Weights(c, x)), Sum(Weights(c, x')), FrameCost(|x.jobs|, x.frames));
  }

  lemma SucceedFalls(g: Graph, c: Config, x: Exec, id: JobId)
    requires Enabled(x, Succeed(id))
    ensures Measure(c, After(g, c, x, Succeed(id))) < Measure(c, x)
  {
    var x' := After(g, c, x, Succeed(id));
    WeightsFall(c, x, x', id);
    ReportFalls(c, x, x', id);
  }

  lemma FailFalls(g: Graph, c: Config, x: Exec, id: JobId, ok: bool)
    requires Enabled(x, Fail(id, ok))
    ensures Measure(c, FailStep(g, c, x, id, ok)) < Measure(c, x)
  {
    var x', how := FailStep(g, c, x, id, ok), HandlingOf(c, x.retries, id, ok);
    if how.GiveUp? {
      if Doomed(x.jobs[id := Failed], g.rdeps, id, id) {
        DoomedIsOpen(x.jobs[id := Failed], g.rdeps, id, id);
      }
    }
    WeightsFall(c, x, x', id);
    ReportFalls(c, x, x', id);
  }

  lemma MeasureFalls(g: Graph, c: Config, x: Exec, a: Action)
    requires Enabled(x, a) && Working(a) && !x.cancelled
    ensures Measure(c, After(g, c, x, a)) < Measure(c, x)
  {
    match a
    case Take(f, ids) => TakeFalls(g, c, x, f, ids);
    case Launch(f, stop) => LaunchFalls(c, x, f);
    case Succeed(id) => SucceedFalls(g, c, x, id);
    case Fail(id, ok) => FailFalls(g, c, x, id, ok);
    hide Measure, After;
  }

  // ---------------------------------------------------------------- whole runs

  /** A run of one execution: it starts all jobs and then lets the workers work. */
  ghost predicate IsExecution(g: Graph, c: Config, states: seq<Exec>, actions: seq<Action>) {
    && IsRun(g, c, states, actions) && Initial(states[0]) && |actions| > 0 && actions[0] == Start
    && forall i :: 0 < i < |actions| ==> Working(actions[i])
  }

  lemma {:induction false} ExecutionIsLive(g: Graph, c: Config, states: seq<Exec>, actions: seq<Action>, i: nat)
    requires IsExecution(g, c, states, actions) && Sound(g, states[0].jobs) && Promotes(g, c)
    requires 0 < i <= |actions|
    ensures Live(g, states[i]) && states[i].jobs.Keys == states[0].jobs.Keys
  {
    if i == 1 {
      StartIsLive(g, c, states[0]);
    } else {
      ExecutionIsLive(g, c, states, actions, i - 1);
      LiveStep(g, c, states[i - 1], actions[i - 1]);
      SameJobs(g, c, states[i - 1], actions[i - 1]);
    }
  }

  lemma SameJobs(g: Graph, c: Config, x: Exec, a: Action)
    requires Enabled(x, a)
    ensures After(g, c, x, a).jobs.Keys == x.jobs.Keys
  {
  }

  /** The variant falls all the way, over any graph and under any policy. */
  lemma {:induction false} ExecutionFalls(g: Graph, c: Config, states: seq<Exec>, actions: seq<Action>, i: nat)
    requires IsExecution(g, c, states, actions) && 0 < i <= |actions|
    ensures !states[i].cancelled && i + Measure(c, states[i]) <= 1 + Measure(c, states[1])
  {
    if i > 1 {
      ExecutionFalls(g, c, states, actions, i - 1);
      MeasureFalls(g, c, states[i - 1], actions[i - 1]);
    }
  }

  /** Every execution is finite: its length is bounded by the variant after the start. */
  lemma ExecutionIsBounded(g: Graph, c: Config, states: seq<Exec>, actions: seq<Action>)
    requires IsExecution(g, c, states, actions)
    ensures |actions| <= 1 + Measure(c, states[1])
  {
    ExecutionFalls(g, c, states, actions, |actions|);
  }

  /** An execution that cannot go on has brought every job to a final state. */
  lemma ExecutionEndsComplete(g: Graph, c: Config, states: seq<Exec>, actions: seq<Action>)
    requires IsExecution(g, c, states, actions) && Sound(g, states[0].jobs) && Promotes(g, c)
    requires Halted(states[|actions|])
    ensures Complete(states[|actions|].jobs)
  {
    var x := states[|actions|];
    ExecutionIsLive(g, c, states, actions, |actions|);
    if !Complete(x.jobs) {
      var a := CanStep(g, x);
    }
  }

  // ---------------------------------------------------------------- fallback

  /** Nothing has failed yet and the worker of `j` has not reported. */
  ghost predicate Holding(g: Graph, x: Exec, j: JobId) {
    && Live(g, x) && j in x.jobs && x.jobs[j] != Completed
    && forall k :: k in x.jobs ==> !Lost(x.jobs[k])
  }

  /** A step that is not a report of `j` nor of any failure. */
  predicate Calm(a: Action, j: JobId) {
    a.Take? || a.Launch? || (a.Succeed? && a.id != j)
  }

  lemma CalmStep(g: Graph, c: Config, x: Exec, a: Action, j: JobId)
    requires GraphOk(g) && Holding(g, x, j) && Enabled(x, a) && Calm(a, j)
    ensures Holding(g, After(g, c, x, a), j)
    ensures After(g, c, x, a).jobs.Keys == x.jobs.Keys
  {
    hide Live, GraphOk;
    CalmLive(g, c, x, a);
    CalmJobs(g, c, x, a, j);
  }

  lemma CalmJobs(g: Graph, c: Config, x: Exec, a: Action, j: JobId)
    requires Enabled(x, a) && Calm(a, j) && j in x.jobs && x.jobs[j] != Completed
    requires forall k :: k in x.jobs ==> !Lost(x.jobs[k])
    ensures After(g, c, x, a).jobs.Keys == x.jobs.Keys && After(g, c, x, a).jobs[j] != Completed
    ensures forall k :: k in x.jobs ==> !Lost(After(g, c, x, a).jobs[k])
  {
    hide Satisfied;
  }

  lemma CalmLive(g: Graph, c: Config, x: Exec, a: Action)
    requires GraphOk(g) && Live(g, x) && Enabled(x, a) && (a.Take? || a.Launch? || a.Succeed?)
    ensures Live(g, After(g, c, x, a))
  {
    hide Live, GraphOk;
    var plain := c.(policy := FailFast);
    LiveStep(g, plain, x, a);
    assert After(g, c, x, a) == After(g, plain, x, a);
  }

  /** Unless `j` runs and everything else has come to rest, there is a calm step. */
  lemma CanStepCalmly(g: Graph, x: Exec, j: JobId) returns (a: Action)
    requires Sound(g, x.jobs) && Holding(g, x, j)
    requires exists k :: k in x.jobs && (x.jobs[k] == Ready || (x.jobs[k] == Running && k != j))
    ensures Calm(a, j) && Enabled(x, a)
  {
    var k :| k in x.jobs && (x.jobs[k] == Ready || (x.jobs[k] == Running && k != j));
    if x.jobs[k] == Running {
      a := Succeed(k);
    } else {
      assert Expected(x.frames, k);
      var f :| 0 <= f < |x.frames|
        && (x.frames[f] == Snapshot || (x.frames[f].Launching? && k in x.frames[f].ids));
      a := FrameStep(x, f);
    }
  }

  /** A frame with something left to do can do it. */
  lemma FrameStep(x: Exec, f: nat) returns (a: Action)
    requires f < |x.frames| && x.frames[f] != Launching([]) && !x.cancelled
    ensures (a.Take? || a.Launch?) && Enabled(x, a)
  {
    if x.frames[f] == Snapshot {
      var ids := Listing(set k | k in x.jobs && x.jobs[k] == Ready);
      a := Take(f, ids);
    } else {
      a := Launch(f, false);
    }
  }

  /** Everything but the worker of `j` has come to rest. */
  ghost predicate AtRest(x: Exec, j: JobId) {
    && (forall k :: k in x.jobs ==> x.jobs[k] != Ready && (x.jobs[k] == Running ==> k == j))
    && (forall f :: 0 <= f < |x.frames| ==> x.frames[f] == Launching([]))
  }

  /** The scheduler can be driven until only the report of `j` is missing. */
  lemma {:induction false} Drive(g: Graph, c: Config, states: seq<Exec>, actions: seq<Action>, j: JobId)
    returns (states': seq<Exec>, actions': seq<Action>)
    requires IsExecution(g, c, states, actions) && Sound(g, states[0].jobs)
    requires Holding(g, states[|actions|], j) && states[|actions|].jobs.Keys == states[0].jobs.Keys
    ensures IsExecution(g, c, states', actions') && states'[0] == states[0]
    ensures Holding(g, states'[|actions'|], j) && AtRest(states'[|actions'|], j)
    ensures states'[|actions'|].jobs.Keys == states[0].jobs.Keys
    decreases Measure(c, states[|actions|])
  {
    hide IsExecution, Sound, Holding, AtRest, Enabled, After, Measure;
    var x := LastState(g, c, states, actions);
    if AtRest(x, j) {
      return states, actions;
    }
    SoundKeys(g, states[0].jobs, x.jobs);
    var a := CalmChoice(g, x, j);
    CalmStep(g, c, x, a, j);
    MeasureFalls(g, c, x, a);
    ExecutionExtends(g, c, states, actions, a);
    var states1, actions1 := states + [After(g, c, x, a)], actions + [a];
    states', actions' := Drive(g, c, states1, actions1, j);
  }

  lemma SoundKeys(g: Graph, jobs: Jobs, jobs': Jobs)
    requires Sound(g, jobs) && jobs'.Keys == jobs.Keys
    ensures GraphOk(g) && Sound(g, jobs')
  {
    hide GraphOk, Acyclic;
  }

  lemma CalmChoice(g: Graph, x: Exec, j: JobId) returns (a: Action)
    requires Sound(g, x.jobs) && Holding(g, x, j) && !AtRest(x, j)
    ensures Calm(a, j) && Working(a) && Enabled(x, a) && !x.cancelled
  {
    hide Sound, Safe, PendingOk, ReadyOk;
    if exists k :: k in x.jobs && (x.jobs[k] == Ready || (x.jobs[k] == Running && k != j)) {
      a := CanStepCalmly(g, x, j);
    } else {
      var f :| 0 <= f < |x.frames| && x.frames[f] != Launching([]);
      a := FrameStep(x, f);
    }
  }

  lemma ExecutionExtends(g: Graph, c: Config, states: seq<Exec>, actions: seq<Action>, a: Action)
    requires IsExecution(g, c, states, actions) && Enabled(states[|actions|], a) && Working(a)
    ensures IsExecution(g, c, states + [After(g, c, states[|actions|], a)], actions + [a])
  {
    var states', actions' := states + [After(g, c, states[|actions|], a)], actions + [a];
    forall i | 0 <= i < |actions'|
      ensures Enabled(states'[i], actions'[i]) && states'[i + 1] == After(g, c, states'[i], actions'[i])
    {
      if i < |actions| {
        assert Enabled(states[i], actions[i]) && states[i + 1] == After(g, c, states[i], actions[i]);
      }
    }
  }

  lemma StartExecution(g: Graph, c: Config, x: Exec, j: JobId)
    requires GraphOk(g) && Initial(x) && j in x.jobs
    ensures IsExecution(g, c, [x, After(g, c, x, Start)], [Start])
    ensures Holding(g, After(g, c, x, Start), j)
  {
    StartIsLive(g, c, x);
  }

  /** At rest `j` must be running: otherwise the scheduler would be deadlocked. */
  lemma RestMeansRunning(g: Graph, x: Exec, j: JobId)
    requires Sound(g, x.jobs) && Holding(g, x, j) && AtRest(x, j)
    ensures x.jobs[j] == Running
  {
    NoDeadlock(g, x);
  }

  /** The last two steps: the fallback of `j` succeeds, and the schedule call finds nothing. */
  lemma Strand(g: Graph, c: Config, x: Exec, j: JobId, y: JobId)
    requires Sound(g, x.jobs) && Holding(g, x, j) && AtRest(x, j) && x.jobs[j] == Running
    requires c.policy == Fallback && j in c.fallbacks && Edge(g.rdeps, j, y)
    ensures var x1 := After(g, c, x, Fail(j, true));
            && Enabled(x, Fail(j, true)) && Enabled(x1, Take(|x.frames|, []))
            && (var x2 := After(g, c, x1, Take(|x.frames|, []));
                !Complete(x2.jobs) && Halted(x2))
  {
    hide Acyclic, PendingOk, ReadyOk, LostOk;
    assert HandlingOf(c, x.retries, j, true) == FellBack;
    assert Edge(g.deps, y, j);
    DependentsWait(g, x.jobs, j, y);
    var x1 := After(g, c, x, Fail(j, true));
    assert x1.jobs[y] == Pending;
    assert Elements([]) == set k | k in x1.jobs && x1.jobs[k] == Ready;
  }

  /** If a job with a fallback has a dependent, some execution stops with that dependent pending. */
  lemma FallbackStrands(g: Graph, c: Config, x: Exec, j: JobId, y: JobId)
    returns (states: seq<Exec>, actions: seq<Action>)
    requires Sound(g, x.jobs) && Initial(x)
    requires c.policy == Fallback && j in c.fallbacks && Edge(g.rdeps, j, y)
    ensures IsExecution(g, c, states, actions) && states[0] == x
    ensures Halted(states[|actions|]) && !Complete(states[|actions|].jobs)
  {
    hide Holding, AtRest, IsExecution, Live, Complete;
    assert j in x.jobs by { assert Edge(g.deps, y, j); }
    StartExecution(g, c, x, j);
    states, actions := Drive(g, c, [x, After(g, c, x, Start)], [Start], j);
    var z := LastState(g, c, states, actions);
    RestMeansRunning(g, z, j);
    Strand(g, c, z, j, y);
    ExecutionExtends(g, c, states, actions, Fail(j, true));
    states, actions := states + [After(g, c, z, Fail(j, true))], actions + [Fail(j, true)];
    var z1 := LastState(g, c, states, actions);
    ExecutionExtends(g, c, states, actions, Take(|z.frames|, []));
    states, actions := states + [After(g, c, z1, Take(|z.frames|, []))], actions + [Take(|z.frames|, [])];
    var z2 := LastState(g, c, states, actions);
  }

  lemma LastState(g: Graph, c: Config, states: seq<Exec>, actions: seq<Action>) returns (x: Exec)
    requires IsExecution(g, c, states, actions)
    ensures |states| == |actions| + 1 && x == states[|actions|]
  {
    x := states[|actions|];
  }

  /** No worker and no schedule call can take a step. */
  ghost predicate Halted(x: Exec) {
    forall a :: Working(a) ==> !Enabled(x, a)
  }

  /** Every execution of these jobs that cannot go on is complete. */
  ghost predicate AlwaysCompletes(g: Graph, c: Config, x: Exec) {
    forall states: seq<Exec>, actions: seq<Action> ::
      IsExecution(g, c, states, actions) && states[0] == x && Halted(states[|actions|]) ==>
      Complete(states[|actions|].jobs)
  }

  /**
    Over a sound graph the scheduler always completes exactly when no job that others
    depend on has a fallback, or the policy is not the fallback policy.
   */
  lemma CompletesIffPromotes(g: Graph, c: Config, x: Exec)
    requires Sound(g, x.jobs) && Initial(x)
    ensures AlwaysCompletes(g, c, x) <==> Promotes(g, c)
  {
    hide Sound, Initial, Complete;
    if Promotes(g, c) {
      forall states: seq<Exec>, actions: seq<Action>
        | IsExecution(g, c, states, actions) && states[0] == x && Halted(states[|actions|])
        ensures Complete(states[|actions|].jobs)
      {
        ExecutionEndsComplete(g, c, states, actions);
      }
    } else {
      var j :| j in c.fallbacks && Targets(g.rdeps, j) != [];
      var states, actions := FallbackStrands(g, c, x, j, Targets(g.rdeps, j)[0]);
    }
  }

  /** Two jobs are enough: job 2 depends on job 1, and job 1 has a fallback. */
  lemma FallbackCounterexample()
    ensures var g, jobs := Graph(map[2 := [1]], map[1 := [2]]), map[1 := Pending, 2 := Pending];
            && Sound(g, jobs)
            && !AlwaysCompletes(g, Config(Fallback, 0, true, {1}), Exec(jobs, map[], 0, false, false, []))
  {
    var g := Graph(map[2 := [1]], map[1 := [2]]);
    assert forall a, b :: Edge(g.deps, a, b) <==> a == 2 && b == 1;
    assert forall a, b :: Edge(g.rdeps, a, b) <==> a == 1 && b == 2;
    forall p
      ensures !IsLasso(g.deps, p)
    {
      if IsLasso(g.deps, p) {
        assert StepAt(g.deps, p, 1);
        assert [1, 2][..1] == [1];
        OrderedNoLasso(g.deps, [1, 2], p);
      }
    }
    assert Targets(g.rdeps, 1) == [2];
    CompletesIffPromotes(g, Config(Fallback, 0, true, {1}),
                         Exec(map[1 := Pending, 2 := Pending], map[], 0, false, false, []));
  }
}
