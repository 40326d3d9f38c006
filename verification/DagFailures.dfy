/** What reported failures and a cancellation make of the jobs, over whole runs of the DAG scheduler. */
module DagFailures {
  import opened DagGraph
  import opened DagModel
  import opened DagRuns

  /** How often `id` was reported failed in the first `i` steps. */
  function FailuresOf(actions: seq<Action>, id: JobId, i: nat): nat
    requires i <= |actions|
  {
    if i == 0 then 0
    else FailuresOf(actions, id, i - 1) + if actions[i - 1].Fail? && actions[i - 1].id == id then 1 else 0
  }

  /** Only a failure under the retry policy counts, and only up to the limit. */
  lemma RetriesStep(g: Graph, c: Config, x: Exec, a: Action, id: JobId)
    requires Enabled(x, a)
    ensures RetriesOf(After(g, c, x, a).retries, id)
            == RetriesOf(x.retries, id)
               + if a.Fail? && a.id == id && c.policy == Retry && RetriesOf(x.retries, id) < c.maxRetries then 1 else 0
  {
    hide Marked, Promoted;
  }

  /** The retry count of a job is the number of its failures, up to the limit. */
  lemma {:induction false} RetriesAre(g: Graph, c: Config, states: seq<Exec>, actions: seq<Action>, i: nat, id: JobId)
    requires IsRun(g, c, states, actions) && Initial(states[0]) && i <= |actions|
    ensures var m := FailuresOf(actions, id, i);
            RetriesOf(states[i].retries, id)
            == if c.policy != Retry then 0 else if m <= c.maxRetries then m else c.maxRetries
  {
    hide After;
    if i > 0 {
      RetriesAre(g, c, states, actions, i - 1, id);
      RetriesStep(g, c, states[i - 1], actions[i - 1], id);
    }
  }

  lemma FailStepOutcome(g: Graph, c: Config, x: Exec, id: JobId, ok: bool, m: nat)
    requires id in x.jobs && m > 0
    requires RetriesOf(x.retries, id)
             == if c.policy != Retry then 0 else if m - 1 <= c.maxRetries then m - 1 else c.maxRetries
    ensures var x' := FailStep(g, c, x, id, ok);
            && id in x'.jobs
            && (c.policy == Retry ==> x'.jobs[id] == if m <= c.maxRetries then Ready else Failed)
            && (c.policy == Fallback ==> x'.jobs[id] == if id in c.fallbacks && ok then Completed else Failed)
            && (c.policy == FailFast || c.policy == ContinueOthers ==> x'.jobs[id] == Failed)
  {
    var failed := x.jobs[id := Failed];
    if Doomed(failed, g.rdeps, id, id) {
      DoomedIsOpen(failed, g.rdeps, id, id);
    }
  }

  /**
    In every run the m-th failure of a job makes it ready again up to the retry limit, completes it if
    its fallback succeeds, and otherwise fails it.
   */
  lemma FailureDecides(g: Graph, c: Config, states: seq<Exec>, actions: seq<Action>, i: nat, id: JobId, ok: bool)
    requires IsRun(g, c, states, actions) && Initial(states[0]) && i < |actions| && actions[i] == Fail(id, ok)
    ensures id in states[i + 1].jobs
    ensures c.policy == Retry ==>
              states[i + 1].jobs[id] == if FailuresOf(actions, id, i + 1) <= c.maxRetries then Ready else Failed
    ensures c.policy == Fallback ==> states[i + 1].jobs[id] == if id in c.fallbacks && ok then Completed else Failed
    ensures c.policy == FailFast || c.policy == ContinueOthers ==> states[i + 1].jobs[id] == Failed
  {
    hide FailStep;
    RetriesAre(g, c, states, actions, i, id);
    FailStepOutcome(g, c, states[i], id, ok, FailuresOf(actions, id, i) + 1);
  }

  // ---------------------------------------------------------------- the jobs a failure stops

  /** A chain of dependents, all of them jobs, from `id` to `y`. */
  ghost predicate DependsOn(among: set<JobId>, rdeps: Edges, y: JobId, id: JobId) {
    exists p :: IsPath(rdeps, p) && |p| > 1 && p[0] == id && p[|p| - 1] == y && Elements(p) <= among
  }

  lemma OthersOf(g: Graph, c: Config, x: Exec, id: JobId, ok: bool, y: JobId)
    requires id in x.jobs && y in x.jobs && y != id
    ensures var x' := FailStep(g, c, x, id, ok);
            && y in x'.jobs && id in x'.jobs
            && (x'.jobs[id] != Failed ==> x'.jobs[y] == x.jobs[y])
            && (x'.jobs[y] != x.jobs[y] ==>
                  && Open(x.jobs[y]) && DependsOn(x.jobs.Keys, g.rdeps, y, id)
                  && x'.jobs[y] == if c.policy == ContinueOthers then Skipped else Cancelled)
  {
    var failed := x.jobs[id := Failed];
    if Doomed(failed, g.rdeps, id, y) {
      DoomedIsOpen(failed, g.rdeps, id, y);
      var p :| DoomPath(failed, g.rdeps, p) && p[0] == id && p[|p| - 1] == y;
      assert Elements(p) <= x.jobs.Keys;
    }
  }

  /**
    A failure that fails its job stops exactly the waiting jobs that depend on it at any distance,
    skipping them under continue_others and cancelling them otherwise; every other job keeps its state.
   */
  lemma FailureSpreads(g: Graph, c: Config, states: seq<Exec>, actions: seq<Action>, i: nat,
                       id: JobId, ok: bool, y: JobId)
    requires GraphOk(g) && IsRun(g, c, states, actions) && Initial(states[0]) && i < |actions|
    requires actions[i] == Fail(id, ok) && y in states[i].jobs && y != id
    ensures id in states[i + 1].jobs && y in states[i + 1].jobs
    ensures var jobs, jobs' := states[i].jobs, states[i + 1].jobs;
            jobs'[y] == if jobs'[id] == Failed && Open(jobs[y]) && DependsOn(jobs.Keys, g.rdeps, y, id)
                        then (if c.policy == ContinueOthers then Skipped else Cancelled)
                        else jobs[y]
  {
    hide FailStep, GraphOk, Safe, DependsOn, IsPath;
    var jobs, x' := states[i].jobs, states[i + 1];
    OthersOf(g, c, states[i], id, ok, y);
    if x'.jobs[id] == Failed && DependsOn(jobs.Keys, g.rdeps, y, id) {
      RunIsSafe(g, c, states, actions, i + 1);
      FailKeepsJobs(g, c, states[i], id, ok);
      DependentLost(g, x', y, id);
    }
  }

  lemma FailKeepsJobs(g: Graph, c: Config, x: Exec, id: JobId, ok: bool)
    requires id in x.jobs
    ensures FailStep(g, c, x, id, ok).jobs.Keys == x.jobs.Keys
  {
  }

  lemma DependentLost(g: Graph, x: Exec, y: JobId, id: JobId)
    requires Safe(g, x) && DependsOn(x.jobs.Keys, g.rdeps, y, id) && id in x.jobs && x.jobs[id] == Failed
    ensures y in x.jobs && (x.jobs[y] == Cancelled || x.jobs[y] == Skipped)
  {
    var p :| IsPath(g.rdeps, p) && |p| > 1 && p[0] == id && p[|p| - 1] == y && Elements(p) <= x.jobs.Keys;
    assert forall k :: 0 <= k < |p| ==> p[k] in Elements(p);
    LostSpreads(g, x, p, |p| - 1);
  }

  // ---------------------------------------------------------------- cancelling everything

  /** No step changes the state of a job that is done. */
  lemma TerminalStays(g: Graph, c: Config, x: Exec, a: Action, id: JobId)
    requires Enabled(x, a) && id in x.jobs && Terminal(x.jobs[id])
    ensures id in After(g, c, x, a).jobs && After(g, c, x, a).jobs[id] == x.jobs[id]
  {
    if a.Fail? && HandlingOf(c, x.retries, a.id, a.fallbackOk).GiveUp? {
      if Doomed(x.jobs[a.id := Failed], g.rdeps, a.id, id) {
        DoomedIsOpen(x.jobs[a.id := Failed], g.rdeps, a.id, id);
      }
    }
  }

  lemma {:induction false} TerminalIsFinal(g: Graph, c: Config, states: seq<Exec>, actions: seq<Action>,
                                           i: nat, j: nat, id: JobId)
    requires IsRun(g, c, states, actions) && i <= j <= |actions|
    requires id in states[i].jobs && Terminal(states[i].jobs[id])
    ensures id in states[j].jobs && states[j].jobs[id] == states[i].jobs[id]
    decreases j
  {
    hide After;
    if i < j {
      TerminalIsFinal(g, c, states, actions, i, j - 1, id);
      TerminalStays(g, c, states[j - 1], actions[j - 1], id);
    }
  }

  /**
    Cancelling everything sets the flag, cancels the jobs that wait and leaves those that run or are
    done alone; and whatever was not running then has its final state for the rest of the run.
   */
  lemma CancelAllStops(g: Graph, c: Config, states: seq<Exec>, actions: seq<Action>, i: nat, j: nat, id: JobId)
    requires IsRun(g, c, states, actions) && i < j <= |actions| && actions[i] == CancelAll && id in states[i].jobs
    ensures states[i + 1].cancelled && id in states[i + 1].jobs
    ensures !Open(states[i + 1].jobs[id])
    ensures !Open(states[i].jobs[id]) ==> states[i + 1].jobs[id] == states[i].jobs[id]
    ensures states[i].jobs[id] != Running ==>
              && id in states[j].jobs
              && states[j].jobs[id] == if Open(states[i].jobs[id]) then Cancelled else states[i].jobs[id]
  {
    if states[i].jobs[id] != Running {
      TerminalIsFinal(g, c, states, actions, i + 1, j, id);
    }
  }

  // ---------------------------------------------------------------- starting and completing

  /** All dependencies of `x` are jobs that completed. */
  ghost predicate NothingLeft(jobs: Jobs, deps: Edges, x: JobId) {
    forall d :: Edge(deps, x, d) ==> d in jobs && jobs[d] == Completed
  }

  /** Starting an execution makes exactly the pending jobs ready that wait for nothing. */
  lemma StartReadies(g: Graph, c: Config, states: seq<Exec>, actions: seq<Action>, i: nat, y: JobId)
    requires IsRun(g, c, states, actions) && i < |actions| && actions[i] == Start && y in states[i].jobs
    ensures states[i + 1].executing && !states[i + 1].cancelled && y in states[i + 1].jobs
    ensures var jobs := states[i].jobs;
            states[i + 1].jobs[y] == if jobs[y] == Pending && NothingLeft(jobs, g.deps, y) then Ready else jobs[y]
  {
  }

  /** A success completes its job and makes exactly those pending dependents ready that wait for nothing more. */
  lemma SuccessReadies(g: Graph, c: Config, states: seq<Exec>, actions: seq<Action>, i: nat, id: JobId, y: JobId)
    requires IsRun(g, c, states, actions) && i < |actions| && actions[i] == Succeed(id)
    requires y in states[i].jobs && y != id
    ensures id in states[i + 1].jobs && states[i + 1].jobs[id] == Completed && y in states[i + 1].jobs
    ensures var jobs, jobs' := states[i].jobs, states[i + 1].jobs;
            jobs'[y] == if jobs[y] == Pending && Edge(g.rdeps, id, y) && NothingLeft(jobs', g.deps, y)
                        then Ready else jobs[y]
  {
    var mid := states[i].jobs[id := Completed];
    var jobs' := states[i + 1].jobs;
    assert forall d :: d in jobs' <==> d in mid;
    assert forall d :: d in mid ==> (jobs'[d] == Completed <==> mid[d] == Completed);
    assert forall d :: Edge(g.deps, y, d) <==> d in Targets(g.deps, y);
    assert Satisfied(mid, g.deps, y) <==> NothingLeft(jobs', g.deps, y);
  }

  /** An execution was started in the first `n` steps and has not ended. */
  function Executing(actions: seq<Action>, n: nat): bool
    requires n <= |actions|
  {
    n > 0 && (actions[n - 1] == Start || (actions[n - 1] != Stop && Executing(actions, n - 1)))
  }

  /** Everything was cancelled after the last start. */
  function CancelledSince(actions: seq<Action>, n: nat): bool
    requires n <= |actions|
  {
    n > 0 && (actions[n - 1] == CancelAll || (actions[n - 1] != Start && CancelledSince(actions, n - 1)))
  }

  /** The flags say what happened so far; one execution ends before the next starts. */
  lemma {:induction false} FlagsAre(g: Graph, c: Config, states: seq<Exec>, actions: seq<Action>, n: nat)
    requires IsRun(g, c, states, actions) && Initial(states[0]) && n <= |actions|
    ensures states[n].executing == Executing(actions, n) && states[n].cancelled == CancelledSince(actions, n)
    ensures n < |actions| && actions[n] == Start ==> !Executing(actions, n)
    ensures n < |actions| && actions[n] == Stop ==>
              Executing(actions, n) && (CancelledSince(actions, n) || Complete(states[n].jobs))
  {
    hide After, Complete;
    if n > 0 {
      FlagsAre(g, c, states, actions, n - 1);
      FlagStep(g, c, states[n - 1], actions[n - 1]);
    }
  }

  lemma FlagStep(g: Graph, c: Config, x: Exec, a: Action)
    requires Enabled(x, a)
    ensures After(g, c, x, a).executing == (a == Start || (a != Stop && x.executing))
    ensures After(g, c, x, a).cancelled == (a == CancelAll || (a != Start && x.cancelled))
  {
    hide Marked, Promoted;
  }
}
