/** The job states of the DAG scheduler and what its locked sections do to them. */
module DagModel {
  import opened DagGraph

  datatype JobState = Pending | Ready | Running | Completed | Failed | Cancelled | Skipped

  datatype Policy = FailFast | ContinueOthers | Retry | Fallback

  /** `fallbacks` are the jobs that have a fallback function. */
  datatype Config = Config(policy: Policy, maxRetries: nat, detectCycles: bool, fallbacks: set<JobId>)

  type Jobs = map<JobId, JobState>

  /** The states a job can still leave without having run. */
  predicate Open(s: JobState) {
    s == Pending || s == Ready
  }

  predicate Terminal(s: JobState) {
    s != Pending && s != Ready && s != Running
  }

  /** A job whose dependencies did not hold it back. */
  predicate Started(s: JobState) {
    s == Ready || s == Running || s == Completed || s == Failed
  }

  predicate Lost(s: JobState) {
    s == Failed || s == Cancelled || s == Skipped
  }

  /** All dependencies are present and completed. */
  predicate Satisfied(jobs: Jobs, deps: Edges, id: JobId) {
    forall d :: d in Targets(deps, id) ==> d in jobs && jobs[d] == Completed
  }

  /** The pending jobs of `among` whose dependencies are satisfied become ready. */
  function Promoted(jobs: Jobs, deps: Edges, among: set<JobId>): Jobs {
    map x | x in jobs :: if x in among && jobs[x] == Pending && Satisfied(jobs, deps, x) then Ready else jobs[x]
  }

  /** The jobs after `id` completed. */
  function AfterCompleted(jobs: Jobs, deps: Edges, rdeps: Edges, id: JobId): Jobs {
    Promoted(jobs[id := Completed], deps, Elements(Targets(rdeps, id)))
  }

  /** A way from a lost job to a dependent on which every job can still be stopped. */
  ghost predicate DoomPath(jobs: Jobs, rdeps: Edges, p: seq<JobId>) {
    IsPath(rdeps, p) && |p| > 1 && forall i :: 0 < i < |p| ==> p[i] in jobs && Open(jobs[p[i]])
  }

  ghost predicate Doomed(jobs: Jobs, rdeps: Edges, id: JobId, x: JobId) {
    exists p :: DoomPath(jobs, rdeps, p) && p[0] == id && p[|p| - 1] == x
  }

  /** The jobs after everything doomed by `id` was marked. */
  ghost function Marked(jobs: Jobs, rdeps: Edges, id: JobId, mark: JobState): Jobs {
    map x | x in jobs :: if Doomed(jobs, rdeps, id, x) then mark else jobs[x]
  }

  /** The jobs after every open job was cancelled. */
  function AllCancelled(jobs: Jobs): Jobs {
    map x | x in jobs :: if Open(jobs[x]) then Cancelled else jobs[x]
  }

  function RetriesOf(retries: map<JobId, nat>, id: JobId): nat {
    if id in retries then retries[id] else 0
  }

  function RunningJobs(jobs: Jobs): set<JobId> {
    set x | x in jobs && jobs[x] == Running
  }

  predicate Complete(jobs: Jobs) {
    forall x :: x in jobs ==> Terminal(jobs[x])
  }

  /** How a failure of `id` is handled. */
  datatype Handling = TryAgain | FellBack | GiveUp(mark: JobState)

  function HandlingOf(c: Config, retries: map<JobId, nat>, id: JobId, fallbackOk: bool): Handling {
    if c.policy == Retry && RetriesOf(retries, id) < c.maxRetries then TryAgain
    else if c.policy == Fallback && id in c.fallbacks && fallbackOk then FellBack
    else if c.policy == ContinueOthers then GiveUp(Skipped)
    else GiveUp(Cancelled)
  }

  /** The jobs after `id` failed. */
  ghost function AfterFailed(jobs: Jobs, rdeps: Edges, id: JobId, how: Handling): Jobs {
    match how
    case TryAgain => jobs[id := Ready]
    case FellBack => jobs[id := Completed]
    case GiveUp(mark) => Marked(jobs[id := Failed], rdeps, id, mark)
  }
}
