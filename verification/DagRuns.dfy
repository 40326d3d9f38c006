/**
  Runs of the DAG scheduler over a fixed graph.  Each locked section is one step; the calls
  of `schedule_ready_jobs` are frames that first take a snapshot of the ready jobs and then
  launch them one by one, interleaved with the workers and with each other.
 */
module DagRuns {
  import opened DagGraph
  import opened DagModel

  datatype Graph = Graph(deps: Edges, rdeps: Edges)

  /** A call of `schedule_ready_jobs` in progress. */
  datatype Frame = Snapshot | Launching(ids: seq<JobId>)

  datatype Exec = Exec(jobs: Jobs, retries: map<JobId, nat>, running: int,
                       executing: bool, cancelled: bool, frames: seq<Frame>)

  datatype Action =
    | Start                                   // the locked section of execute_all
    | Take(f: nat, ids: seq<JobId>)           // frame f lists the ready jobs
    | Launch(f: nat, stop: bool)              // frame f handles the next job of its list, or stops
    | Succeed(id: JobId)                      // a worker reports success
    | Fail(id: JobId, fallbackOk: bool)       // a worker reports failure
    | CancelAll
    | Stop                                    // execute_all returns

  predicate Initial(x: Exec) {
    && (forall j :: j in x.jobs ==> x.jobs[j] == Pending)
    && x.retries == map[] && x.running == 0 && !x.executing && !x.cancelled && x.frames == []
  }

  predicate Enabled(x: Exec, a: Action) {
    match a
    case Start => !x.executing
    case Take(f, ids) =>
      && f < |x.frames| && x.frames[f] == Snapshot
      && ((x.cancelled && ids == [])
          || (NoDuplicates(ids) && Elements(ids) == set j | j in x.jobs && x.jobs[j] == Ready))
    case Launch(f, stop) =>
      f < |x.frames| && x.frames[f].Launching? && x.frames[f].ids != [] && (stop ==> x.cancelled)
    case Succeed(id) => id in x.jobs && x.jobs[id] == Running
    case Fail(id, ok) => id in x.jobs && x.jobs[id] == Running
    case CancelAll => true
    case Stop => x.executing && (Complete(x.jobs) || x.cancelled)
  }

  /**
    `execute_job`: only a ready job is started.  The cancelled flag is read before the lock is
    taken, so a call may go on although the flag is set by then.
   */
  function LaunchStep(x: Exec, f: nat, stop: bool): Exec
    requires f < |x.frames| && x.frames[f].Launching? && x.frames[f].ids != []
  {
    var ids := x.frames[f].ids;
    if stop then x.(frames := x.frames[f := Launching([])])
    else
      var rest := x.(frames := x.frames[f := Launching(ids[1..])]);
      if ids[0] in x.jobs && x.jobs[ids[0]] == Ready
      then rest.(jobs := x.jobs[ids[0] := Running], running := x.running + 1)
      else rest
  }

  ghost function FailStep(g: Graph, c: Config, x: Exec, id: JobId, fallbackOk: bool): Exec
    requires id in x.jobs
  {
    var how := HandlingOf(c, x.retries, id, fallbackOk);
    x.(jobs := AfterFailed(x.jobs, g.rdeps, id, how),
       retries := if how.TryAgain? then x.retries[id := RetriesOf(x.retries, id) + 1] else x.retries,
       running := x.running - 1,
       frames := x.frames + [Snapshot])
  }

  ghost function After(g: Graph, c: Config, x: Exec, a: Action): Exec
    requires Enabled(x, a)
  {
    match a
    case Start =>
      x.(executing := true, cancelled := false, jobs := Promoted(x.jobs, g.deps, x.jobs.Keys),
         frames := x.frames + [Snapshot])
    case Take(f, ids) => x.(frames := x.frames[f := Launching(ids)])
    case Launch(f, stop) => LaunchStep(x, f, stop)
    case Succeed(id) =>
      x.(jobs := AfterCompleted(x.jobs, g.deps, g.rdeps, id), running := x.running - 1,
         frames := x.frames + [Snapshot])
    case Fail(id, ok) => FailStep(g, c, x, id, ok)
    case CancelAll => x.(cancelled := true, jobs := AllCancelled(x.jobs))
    case Stop => x.(executing := false)
  }

  ghost predicate IsRun(g: Graph, c: Config, states: seq<Exec>, actions: seq<Action>) {
    && |states| == |actions| + 1
    && forall i :: 0 <= i < |actions| ==>
         Enabled(states[i], actions[i]) && states[i + 1] == After(g, c, states[i], actions[i])
  }

  // ---------------------------------------------------------------- safety

  /** A job that was let start has all its dependencies completed. */
  ghost predicate StartedOk(jobs: Jobs, deps: Edges) {
    forall x :: x in jobs && Started(jobs[x]) ==> Satisfied(jobs, deps, x)
  }

  /** The direct dependents of a lost job are cancelled or skipped. */
  ghost predicate LostOk(jobs: Jobs, rdeps: Edges) {
    forall x, y :: x in jobs && Lost(jobs[x]) && Edge(rdeps, x, y) && y in jobs ==>
      jobs[y] == Cancelled || jobs[y] == Skipped
  }

  ghost predicate Safe(g: Graph, x: Exec) {
    && StartedOk(x.jobs, g.deps) && LostOk(x.jobs, g.rdeps)
    && x.running == |RunningJobs(x.jobs)|
  }

  ghost predicate GraphOk(g: Graph) {
    forall a, b :: Edge(g.deps, a, b) <==> Edge(g.rdeps, b, a)
  }

  /** A dependent of a job that has not completed was not let start. */
  lemma DependentsWait(g: Graph, jobs: Jobs, x: JobId, y: JobId)
    requires GraphOk(g) && StartedOk(jobs, g.deps)
    requires x in jobs && jobs[x] != Completed && Edge(g.rdeps, x, y) && y in jobs
    ensures jobs[y] == Pending || jobs[y] == Cancelled || jobs[y] == Skipped
  {
    assert Edge(g.deps, y, x);
    assert Started(jobs[y]) ==> Satisfied(jobs, g.deps, y);
  }

  /** Making a dependency-free step in one job: the others keep what they need. */
  lemma PromotedOk(g: Graph, jobs: Jobs, among: set<JobId>)
    requires GraphOk(g) && StartedOk(jobs, g.deps) && LostOk(jobs, g.rdeps)
    ensures StartedOk(Promoted(jobs, g.deps, among), g.deps)
    ensures LostOk(Promoted(jobs, g.deps, among), g.rdeps)
    ensures RunningJobs(Promoted(jobs, g.deps, among)) == RunningJobs(jobs)
  {
    var jobs' := Promoted(jobs, g.deps, among);
    forall x | x in jobs' && Started(jobs'[x])
      ensures Satisfied(jobs', g.deps, x)
    {
      assert Satisfied(jobs, g.deps, x);
    }
  }

  lemma CompletedOk(g: Graph, jobs: Jobs, id: JobId)
    requires GraphOk(g) && StartedOk(jobs, g.deps) && LostOk(jobs, g.rdeps)
    requires id in jobs && jobs[id] == Running
    ensures StartedOk(jobs[id := Completed], g.deps) && LostOk(jobs[id := Completed], g.rdeps)
    ensures RunningJobs(jobs[id := Completed]) == RunningJobs(jobs) - {id}
  {
    var jobs' := jobs[id := Completed];
    forall x | x in jobs' && Started(jobs'[x])
      ensures Satisfied(jobs', g.deps, x)
    {
      assert Satisfied(jobs, g.deps, x);
    }
  }

  /** Changing a job between ready and running keeps everything but the count. */
  lemma ToggledOk(g: Graph, jobs: Jobs, id: JobId, s: JobState)
    requires StartedOk(jobs, g.deps) && LostOk(jobs, g.rdeps)
    requires id in jobs && (jobs[id] == Ready || jobs[id] == Running) && (s == Ready || s == Running)
    ensures StartedOk(jobs[id := s], g.deps) && LostOk(jobs[id := s], g.rdeps)
  {
    var jobs' := jobs[id := s];
    forall x | x in jobs' && Started(jobs'[x])
      ensures Satisfied(jobs', g.deps, x)
    {
      assert Satisfied(jobs, g.deps, x);
    }
  }

  /** A failed job's dependents can all be stopped, and stopping them stops theirs. */
  lemma MarkedOk(g: Graph, jobs: Jobs, id: JobId, mark: JobState)
    requires GraphOk(g) && StartedOk(jobs, g.deps) && LostOk(jobs, g.rdeps)
    requires id in jobs && jobs[id] == Running && (mark == Cancelled || mark == Skipped)
    ensures StartedOk(Marked(jobs[id := Failed], g.rdeps, id, mark), g.deps)
    ensures LostOk(Marked(jobs[id := Failed], g.rdeps, id, mark), g.rdeps)
    ensures RunningJobs(Marked(jobs[id := Failed], g.rdeps, id, mark)) == RunningJobs(jobs) - {id}
  {
    var failed := jobs[id := Failed];
    var jobs' := Marked(failed, g.rdeps, id, mark);
    forall x | x in jobs && Doomed(failed, g.rdeps, id, x)
      ensures Open(jobs[x]) && x != id
    {
      DoomedIsOpen(failed, g.rdeps, id, x);
    }
    forall x | x in jobs' && Started(jobs'[x])
      ensures Satisfied(jobs', g.deps, x)
    {
      assert Satisfied(jobs, g.deps, x);
    }
    forall x, y | x in jobs' && Lost(jobs'[x]) && Edge(g.rdeps, x, y) && y in jobs'
      ensures jobs'[y] == Cancelled || jobs'[y] == Skipped
    {
      if x == id || Doomed(failed, g.rdeps, id, x) {
        DependentsWait(g, jobs, x, y);
        if jobs[y] == Pending {
          DoomSpreads(failed, g.rdeps, id, x, y);
        }
      }
    }
  }

  lemma DoomedIsOpen(jobs: Jobs, rdeps: Edges, id: JobId, x: JobId)
    requires Doomed(jobs, rdeps, id, x)
    ensures x in jobs && Open(jobs[x])
  {
    var p :| DoomPath(jobs, rdeps, p) && p[0] == id && p[|p| - 1] == x;
  }

  lemma DoomSpreads(jobs: Jobs, rdeps: Edges, id: JobId, x: JobId, y: JobId)
    requires x == id || Doomed(jobs, rdeps, id, x)
    requires Edge(rdeps, x, y) && y in jobs && Open(jobs[y])
    ensures Doomed(jobs, rdeps, id, y)
  {
    var p := [id];
    if x != id {
      p :| DoomPath(jobs, rdeps, p) && p[0] == id && p[|p| - 1] == x;
    }
    assert IsPath(rdeps, p);
    PathExtend(rdeps, p, y);
    var q := p + [y];
    assert DoomPath(jobs, rdeps, q) && q[0] == id && q[|q| - 1] == y;
  }

  lemma CancelledOk(g: Graph, jobs: Jobs)
    requires GraphOk(g) && StartedOk(jobs, g.deps) && LostOk(jobs, g.rdeps)
    ensures StartedOk(AllCancelled(jobs), g.deps) && LostOk(AllCancelled(jobs), g.rdeps)
    ensures RunningJobs(AllCancelled(jobs)) == RunningJobs(jobs)
  {
    var jobs' := AllCancelled(jobs);
    forall x | x in jobs' && Started(jobs'[x])
      ensures Satisfied(jobs', g.deps, x)
    {
      assert Satisfied(jobs, g.deps, x);
    }
    forall x, y | x in jobs' && Lost(jobs'[x]) && Edge(g.rdeps, x, y) && y in jobs'
      ensures jobs'[y] == Cancelled || jobs'[y] == Skipped
    {
      if Open(jobs[x]) {
        DependentsWait(g, jobs, x, y);
      }
    }
  }

  lemma SafeLaunch(g: Graph, x: Exec, f: nat, stop: bool)
    requires Safe(g, x) && Enabled(x, Launch(f, stop))
    ensures Safe(g, LaunchStep(x, f, stop))
  {
    hide StartedOk, LostOk;
    var id := x.frames[f].ids[0];
    if !stop && id in x.jobs && x.jobs[id] == Ready {
      ToggledOk(g, x.jobs, id, Running);
      assert RunningJobs(x.jobs[id := Running]) == RunningJobs(x.jobs) + {id};
    }
  }

  lemma SafeFail(g: Graph, c: Config, x: Exec, id: JobId, ok: bool)
    requires GraphOk(g) && Safe(g, x) && id in x.jobs && x.jobs[id] == Running
    ensures Safe(g, FailStep(g, c, x, id, ok))
  {
    hide StartedOk, LostOk, GraphOk, HandlingOf;
    match HandlingOf(c, x.retries, id, ok)
    case TryAgain =>
      ToggledOk(g, x.jobs, id, Ready);
      assert RunningJobs(x.jobs[id := Ready]) == RunningJobs(x.jobs) - {id};
    case FellBack => CompletedOk(g, x.jobs, id);
    case GiveUp(mark) =>
      MarkIsLoss(c, x.retries, id, ok);
      MarkedOk(g, x.jobs, id, mark);
  }

  lemma MarkIsLoss(c: Config, retries: map<JobId, nat>, id: JobId, ok: bool)
    ensures HandlingOf(c, retries, id, ok).GiveUp? ==>
              HandlingOf(c, retries, id, ok).mark == Cancelled || HandlingOf(c, retries, id, ok).mark == Skipped
  {
  }

  lemma SafeStep(g: Graph, c: Config, x: Exec, a: Action)
    requires GraphOk(g) && Safe(g, x) && Enabled(x, a)
    ensures Safe(g, After(g, c, x, a))
  {
    hide StartedOk, LostOk, GraphOk, LaunchStep, FailStep, Promoted, AllCancelled, RunningJobs;
    match a
    case Start => PromotedOk(g, x.jobs, x.jobs.Keys);
    case Launch(f, stop) => SafeLaunch(g, x, f, stop);
    case Succeed(id) =>
      CompletedOk(g, x.jobs, id);
      PromotedOk(g, x.jobs[id := Completed], Elements(Targets(g.rdeps, id)));
      assert id in RunningJobs(x.jobs) by { RunningMember(x.jobs, id); }
    case Fail(id, ok) => SafeFail(g, c, x, id, ok);
    case CancelAll => CancelledOk(g, x.jobs);
    case Take(f, ids) =>
    case Stop =>
  }

  lemma RunningMember(jobs: Jobs, id: JobId)
    requires id in jobs && jobs[id] == Running
    ensures id in RunningJobs(jobs)
  {
  }

  /** Safety of every state of every run, under every policy and with cancellation at any time. */
  lemma {:induction false} RunIsSafe(g: Graph, c: Config, states: seq<Exec>, actions: seq<Action>, i: nat)
    requires GraphOk(g) && IsRun(g, c, states, actions) && Initial(states[0]) && i <= |actions|
    ensures Safe(g, states[i])
  {
    if i == 0 {
      assert RunningJobs(states[0].jobs) == {};
    } else {
      RunIsSafe(g, c, states, actions, i - 1);
      SafeStep(g, c, states[i - 1], actions[i - 1]);
    }
  }

  /** A completed job stays completed. */
  lemma CompletedStays(g: Graph, c: Config, x: Exec, a: Action, id: JobId)
    requires Enabled(x, a) && id in x.jobs && x.jobs[id] == Completed
    ensures id in After(g, c, x, a).jobs && After(g, c, x, a).jobs[id] == Completed
  {
    if a.Fail? && HandlingOf(c, x.retries, a.id, a.fallbackOk).GiveUp? {
      if Doomed(x.jobs[a.id := Failed], g.rdeps, a.id, id) {
        DoomedIsOpen(x.jobs[a.id := Failed], g.rdeps, a.id, id);
      }
    }
  }

  /** So no run ever leaves it. */
  lemma {:induction false} CompletedIsFinal(g: Graph, c: Config, states: seq<Exec>, actions: seq<Action>,
                                            i: nat, j: nat, id: JobId)
    requires IsRun(g, c, states, actions) && i <= j <= |actions|
    requires id in states[i].jobs && states[i].jobs[id] == Completed
    ensures id in states[j].jobs && states[j].jobs[id] == Completed
    decreases j
  {
    hide After;
    if i < j {
      CompletedIsFinal(g, c, states, actions, i, j - 1, id);
      CompletedStays(g, c, states[j - 1], actions[j - 1], id);
    }
  }

  /** Nothing that depends, at any distance, on a lost job is ever run. */
  lemma {:induction false} LostSpreads(g: Graph, x: Exec, p: seq<JobId>, k: nat)
    requires Safe(g, x) && IsPath(g.rdeps, p) && 0 < k < |p|
    requires forall i :: 0 <= i < |p| ==> p[i] in x.jobs
    requires Lost(x.jobs[p[0]])
    ensures x.jobs[p[k]] == Cancelled || x.jobs[p[k]] == Skipped
  {
    assert StepAt(g.rdeps, p, k);
    if k > 1 {
      LostSpreads(g, x, p, k - 1);
    }
    assert Lost(x.jobs[p[k - 1]]);
  }
}
