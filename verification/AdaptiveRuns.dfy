/** Enqueuers, dequeuers, a migrator and a stop of the adaptive queue, interleaved. */
module AdaptiveRuns {
  import opened AdaptiveQueue
  import opened JobQueue

  type Thread = nat

  /** Where a call is: which queue it was told to use, and for a dequeue whether that was empty. */
  datatype Call = Enqueuing(job: Job, to: Mode) | Dequeuing(from: Mode, second: bool)

  /**
    `hand` holds the jobs the migrator has taken and not yet put down.  `stopped` is the flag
    of the adaptive queue, `mutexStopped` that of its mutex queue, which is set after it.
   */
  datatype State = State(mode: Mode, mutexQ: seq<Job>, lockFreeQ: seq<Job>, calls: map<Thread, Call>,
                         migrating: bool, hand: seq<Job>, stopped: bool, mutexStopped: bool,
                         enqueued: seq<Job>, delivered: seq<Job>, dropped: seq<Job>)

  const Initial: State := State(MutexMode, [], [], map[], false, [], false, false, [], [], [])

  /** `busy` is true when a lock-free enqueue runs out of retries. */
  datatype Action =
    | StartEnqueue(t: Thread, job: Job)     // passes the stop test and reads the mode
    | Push(t: Thread, busy: bool)           // the sub-queue takes the job or refuses it
    | StartDequeue(t: Thread)               // passes the stop test and reads the mode
    | Pop(t: Thread)                        // takes the front job of the queue at hand
    | MissFirst(t: Thread)                  // the first queue gives no job
    | MissSecond(t: Thread)                 // the second one neither: the call answers empty
    | StartMigration(target: Mode)          // stores the new mode under the migration lock
    | TakeOne                               // the migrator pops the lock-free queue
    | TakeAll                               // the migrator empties the mutex queue
    | PutDown(busy: bool)                   // the migrator enqueues the next job, ignoring the answer
    | EndMigration
    | Stop
    | StopMutex

  function QueueOf(s: State, m: Mode): seq<Job> {
    if m == MutexMode then s.mutexQ else s.lockFreeQ
  }

  function WithQueue(s: State, m: Mode, q: seq<Job>): State {
    if m == MutexMode then s.(mutexQ := q) else s.(lockFreeQ := q)
  }

  function Other(m: Mode): Mode {
    if m == MutexMode then LockFreeMode else MutexMode
  }

  /** What a sub-queue answers to an enqueue: the mutex queue is unbounded, the lock-free one never stopped. */
  predicate Takes(s: State, m: Mode, busy: bool) {
    if m == MutexMode then !s.mutexStopped else !busy
  }

  predicate IsDequeuing(s: State, t: Thread) {
    t in s.calls && s.calls[t].Dequeuing?
  }

  /** The mutex queue gives no job when it is empty or stopped; the lock-free one may give up at any time. */
  predicate CanMiss(s: State, m: Mode) {
    m == MutexMode ==> s.mutexQ == [] || s.mutexStopped
  }

  predicate Enabled(s: State, a: Action) {
    match a
    case StartEnqueue(t, job) => t !in s.calls && !s.stopped
    case Push(t, busy) => t in s.calls && s.calls[t].Enqueuing?
    case StartDequeue(t) => t !in s.calls && !s.stopped
    case Pop(t) =>
      IsDequeuing(s, t) && QueueOf(s, s.calls[t].from) != [] && (s.calls[t].from == MutexMode ==> !s.mutexStopped)
    case MissFirst(t) => IsDequeuing(s, t) && !s.calls[t].second && CanMiss(s, s.calls[t].from)
    case MissSecond(t) => IsDequeuing(s, t) && s.calls[t].second && CanMiss(s, s.calls[t].from)
    case StartMigration(target) => !s.migrating && s.mode != target
    case TakeOne => s.migrating && s.mode == MutexMode && s.hand == [] && s.lockFreeQ != []
    case TakeAll => s.migrating && s.mode == LockFreeMode && s.hand == []
    case PutDown(busy) => s.migrating && s.hand != []
    case EndMigration => s.migrating && s.hand == []
    case Stop => true
    case StopMutex => s.stopped
  }

  function After(s: State, a: Action): State
    requires Enabled(s, a)
  {
    match a
    case StartEnqueue(t, job) => s.(calls := s.calls[t := Enqueuing(job, s.mode)])
    case Push(t, busy) =>
      var c := s.calls[t];
      var s' := s.(calls := s.calls - {t});
      if Takes(s, c.to, busy) then WithQueue(s', c.to, QueueOf(s, c.to) + [c.job]).(enqueued := s.enqueued + [c.job])
      else s'
    case StartDequeue(t) => s.(calls := s.calls[t := Dequeuing(s.mode, false)])
    case Pop(t) =>
      var m := s.calls[t].from;
      WithQueue(s, m, QueueOf(s, m)[1..]).(calls := s.calls - {t}, delivered := s.delivered + [QueueOf(s, m)[0]])
    case MissFirst(t) => s.(calls := s.calls[t := Dequeuing(Other(s.calls[t].from), true)])
    case MissSecond(t) => s.(calls := s.calls - {t})
    case StartMigration(target) => s.(migrating := true, mode := target)
    case TakeOne => s.(hand := [s.lockFreeQ[0]], lockFreeQ := s.lockFreeQ[1..])
    case TakeAll => s.(hand := s.mutexQ, mutexQ := [])
    case PutDown(busy) =>
      var s' := s.(hand := s.hand[1..]);
      if Takes(s, s.mode, busy) then WithQueue(s', s.mode, QueueOf(s, s.mode) + [s.hand[0]])
      else s'.(dropped := s.dropped + [s.hand[0]])
    case EndMigration => s.(migrating := false)
    case Stop => s.(stopped := true)
    case StopMutex => s.(mutexStopped := true)
  }

  ghost predicate IsRun(states: seq<State>, actions: seq<Action>) {
    && |states| == |actions| + 1 && states[0] == Initial
    && forall i :: 0 <= i < |actions| ==>
         Enabled(states[i], actions[i]) && states[i + 1] == After(states[i], actions[i])
  }

  // ---------------------------------------------------------------- conservation

  /** Every job that was accepted is in one place. */
  ghost predicate Conserved(s: State) {
    && multiset(s.enqueued)
       == multiset(s.mutexQ) + multiset(s.lockFreeQ) + multiset(s.hand) + multiset(s.delivered) + multiset(s.dropped)
    && (!s.migrating ==> s.hand == [])
  }

  lemma Front(q: seq<Job>)
    requires q != []
    ensures multiset(q) == multiset([q[0]]) + multiset(q[1..])
  {
    assert q == [q[0]] + q[1..];
  }

  lemma PushConserves(s: State, t: Thread, busy: bool)
    requires Conserved(s) && Enabled(s, Push(t, busy)) && Takes(s, s.calls[t].to, busy)
    ensures Conserved(After(s, Push(t, busy)))
  {
    if s.calls[t].to == MutexMode {
      assert multiset(After(s, Push(t, busy)).mutexQ) == multiset(s.mutexQ) + multiset{s.calls[t].job};
    } else {
      assert multiset(After(s, Push(t, busy)).lockFreeQ) == multiset(s.lockFreeQ) + multiset{s.calls[t].job};
    }
  }

  lemma Handed(e: multiset<Job>, from: multiset<Job>, from': multiset<Job>, rest: multiset<Job>,
               d: multiset<Job>, d': multiset<Job>, job: Job)
    requires e == from + rest + d && from == from' + multiset{job} && d' == d + multiset{job}
    ensures e == from' + rest + d'
  {
  }

  lemma PopConserves(s: State, t: Thread)
    requires Conserved(s) && Enabled(s, Pop(t))
    ensures Conserved(After(s, Pop(t)))
  {
    hide Conserved;
    var s' := After(s, Pop(t));
    var q := QueueOf(s, s.calls[t].from);
    var m, l, h := multiset(s.mutexQ), multiset(s.lockFreeQ), multiset(s.hand);
    var d, x := multiset(s.delivered), multiset(s.dropped);
    Front(q);
    SumOf(s, m, l, h, d, x);
    if s.calls[t].from == MutexMode {
      Handed(multiset(s.enqueued), m, multiset(q[1..]), l + h + x, d, multiset(s'.delivered), q[0]);
    } else {
      Handed(multiset(s.enqueued), l, multiset(q[1..]), m + h + x, d, multiset(s'.delivered), q[0]);
    }
    SumOf(s', multiset(s'.mutexQ), multiset(s'.lockFreeQ), h, multiset(s'.delivered), x);
  }

  /** Conservation with its summands in another order. */
  lemma SumOf(s: State, m: multiset<Job>, l: multiset<Job>, h: multiset<Job>, d: multiset<Job>, x: multiset<Job>)
    requires m == multiset(s.mutexQ) && l == multiset(s.lockFreeQ) && h == multiset(s.hand)
    requires d == multiset(s.delivered) && x == multiset(s.dropped)
    ensures Conserved(s) ==> multiset(s.enqueued) == m + (l + h + x) + d && multiset(s.enqueued) == l + (m + h + x) + d
    ensures multiset(s.enqueued) == m + (l + h + x) + d && (s.migrating || s.hand == []) ==> Conserved(s)
    ensures multiset(s.enqueued) == l + (m + h + x) + d && (s.migrating || s.hand == []) ==> Conserved(s)
    ensures Conserved(s) ==> s.migrating || s.hand == []
  {
    assert m + (l + h + x) + d == m + l + h + d + x;
    assert l + (m + h + x) + d == m + l + h + d + x;
  }

  lemma PutDownConserves(s: State, busy: bool)
    requires Conserved(s) && Enabled(s, PutDown(busy)) && Takes(s, s.mode, busy)
    ensures Conserved(After(s, PutDown(busy)))
  {
    Front(s.hand);
    if s.mode == MutexMode {
      assert multiset(After(s, PutDown(busy)).mutexQ) == multiset(s.mutexQ) + multiset{s.hand[0]};
    } else {
      assert multiset(After(s, PutDown(busy)).lockFreeQ) == multiset(s.lockFreeQ) + multiset{s.hand[0]};
    }
  }

  lemma MigratorConserves(s: State, a: Action)
    requires Conserved(s) && Enabled(s, a)
    requires a == TakeOne || a == TakeAll || (a.PutDown? && !Takes(s, s.mode, a.busy))
    ensures Conserved(After(s, a))
  {
    if a.TakeOne? {
      Front(s.lockFreeQ);
    } else if a.PutDown? {
      Front(s.hand);
    }
  }

  lemma StepConserves(s: State, a: Action)
    requires Conserved(s) && Enabled(s, a)
    ensures Conserved(After(s, a))
  {
    match a
    case Push(t, busy) =>
      if Takes(s, s.calls[t].to, busy) {
        PushConserves(s, t, busy);
      }
    case Pop(t) => PopConserves(s, t);
    case TakeOne => MigratorConserves(s, a);
    case TakeAll => MigratorConserves(s, a);
    case PutDown(busy) =>
      if Takes(s, s.mode, busy) {
        PutDownConserves(s, busy);
      } else {
        MigratorConserves(s, a);
      }
    case _ =>
  }

  /** In every interleaving each accepted job is in one queue, in the migrator's hands, delivered or dropped. */
  lemma {:induction false} RunConserves(states: seq<State>, actions: seq<Action>, i: nat)
    requires IsRun(states, actions) && i <= |actions|
    ensures Conserved(states[i])
  {
    if i > 0 {
      RunConserves(states, actions, i - 1);
      hide After;
      StepConserves(states[i - 1], actions[i - 1]);
    }
  }

  /** Distinct jobs are delivered at most once each. */
  lemma DeliveredOnce(states: seq<State>, actions: seq<Action>, n: nat, job: Job)
    requires IsRun(states, actions) && n <= |actions| && multiset(states[n].enqueued)[job] <= 1
    ensures multiset(states[n].delivered)[job] <= multiset(states[n].enqueued)[job]
    ensures multiset(states[n].delivered)[job] == 1 ==>
              && job !in states[n].mutexQ && job !in states[n].lockFreeQ
              && job !in states[n].hand && job !in states[n].dropped
  {
    RunConserves(states, actions, n);
    var s := states[n];
    assert job in s.mutexQ ==> multiset(s.mutexQ)[job] > 0;
    assert job in s.lockFreeQ ==> multiset(s.lockFreeQ)[job] > 0;
    assert job in s.hand ==> multiset(s.hand)[job] > 0;
    assert job in s.dropped ==> multiset(s.dropped)[job] > 0;
  }

  // ---------------------------------------------------------------- when jobs are lost

  /** The mutex queue is stopped exactly when `stop` has reached it. */
  lemma {:induction false} StoppedIff(states: seq<State>, actions: seq<Action>, n: nat)
    requires IsRun(states, actions) && n <= |actions|
    ensures states[n].mutexStopped <==> exists k :: 0 <= k < n && actions[k] == StopMutex
  {
    if n > 0 {
      StoppedIff(states, actions, n - 1);
      StopsWhen(states[n - 1], actions[n - 1]);
    }
  }

  lemma StopsWhen(s: State, a: Action)
    requires Enabled(s, a)
    ensures After(s, a).mutexStopped <==> s.mutexStopped || a == StopMutex
  {
  }

  /** At step `i` the migrator puts a job down into a stopped mutex queue or a busy lock-free one. */
  ghost predicate LosesAt(states: seq<State>, actions: seq<Action>, i: nat)
    requires i < |actions| < |states|
  {
    && actions[i].PutDown?
    && (if states[i].mode == MutexMode then exists k :: 0 <= k < i && actions[k] == StopMutex else actions[i].busy)
  }

  /**
    A run loses a job exactly when the migrator puts one down into the mutex queue after a
    stop reached it, or a lock-free enqueue of the migrator answers busy.
   */
  lemma {:induction false} LosesIff(states: seq<State>, actions: seq<Action>, n: nat)
    requires IsRun(states, actions) && n <= |actions|
    ensures states[n].dropped == [] <==> forall i: nat :: i < n ==> !LosesAt(states, actions, i)
  {
    hide Enabled, After;
    if n > 0 {
      var k := n - 1;
      LosesIff(states, actions, k);
      StoppedIff(states, actions, k);
      assert Enabled(states[k], actions[k]) && states[k + 1] == After(states[k], actions[k]);
      DropsWhen(states[k], actions[k]);
      assert LosesAt(states, actions, k) <==> actions[k].PutDown? && !Takes(states[k], states[k].mode, actions[k].busy);
    }
  }

  lemma DropsWhen(s: State, a: Action)
    requires Enabled(s, a)
    ensures a.PutDown? && !Takes(s, s.mode, a.busy) ==> |After(s, a).dropped| == |s.dropped| + 1
    ensures !(a.PutDown? && !Takes(s, s.mode, a.busy)) ==> After(s, a).dropped == s.dropped
  {
  }

  // ---------------------------------------------------------------- draining

  /** The lock-free queue gives up although it has a job. */
  predicate GivesUp(s: State, a: Action) {
    (a.MissFirst? || a.MissSecond?) && IsDequeuing(s, a.t) && s.calls[a.t].from == LockFreeMode && s.lockFreeQ != []
  }

  /** Steps of thread `t` alone, which dequeues again and again. */
  ghost predicate IsSolo(states: seq<State>, actions: seq<Action>, t: Thread) {
    && |states| == |actions| + 1
    && forall i :: 0 <= i < |actions| ==>
         && (actions[i].StartDequeue? || actions[i].Pop? || actions[i].MissFirst? || actions[i].MissSecond?)
         && actions[i].t == t && Enabled(states[i], actions[i]) && !GivesUp(states[i], actions[i])
         && states[i + 1] == After(states[i], actions[i])
  }

  /** The jobs in the order a lone dequeuer gets them: the queue in use, then what is left in the other. */
  function Rest(s: State): seq<Job> {
    QueueOf(s, s.mode) + QueueOf(s, Other(s.mode))
  }

  /** Not stopped, nobody else active for `t` to wait for, and `t` between calls. */
  predicate Quiet(s: State, t: Thread) {
    !s.stopped && !s.mutexStopped && !s.migrating && t !in s.calls
  }

  /** Calls of `t` that have answered in the first `i` steps. */
  ghost function Answers(actions: seq<Action>, i: nat): nat
    requires i <= |actions|
  {
    if i == 0 then 0 else Answers(actions, i - 1) + if actions[i - 1].Pop? || actions[i - 1].MissSecond? then 1 else 0
  }

  /** Where a lone dequeuer is: in the second queue only after finding the first one empty. */
  predicate Alone(s: State, t: Thread) {
    && !s.stopped && !s.mutexStopped
    && (t in s.calls ==>
          && s.calls[t].Dequeuing?
          && s.calls[t].from == (if s.calls[t].second then Other(s.mode) else s.mode)
          && (s.calls[t].second ==> QueueOf(s, s.mode) == []))
  }

  /** What a step of a lone dequeuer leaves alone and what it moves. */
  ghost predicate Drained(s: State, a: Action, s': State, t: Thread) {
    && Alone(s', t) && s'.mode == s.mode && s'.enqueued == s.enqueued && s'.dropped == s.dropped
    && s'.migrating == s.migrating && s'.hand == s.hand
    && s'.delivered + Rest(s') == s.delivered + Rest(s)
    && |s'.delivered| == |s.delivered| + (if a.Pop? then 1 else 0)
    && (a.MissSecond? ==> Rest(s) == [])
  }

  lemma SoloPop(s: State, t: Thread)
    requires Alone(s, t) && Enabled(s, Pop(t))
    ensures Drained(s, Pop(t), After(s, Pop(t)), t)
  {
    var s', m := After(s, Pop(t)), s.calls[t].from;
    var q, other := QueueOf(s, m), QueueOf(s, Other(s.mode));
    assert q == [q[0]] + q[1..];
    if m == s.mode {
      assert Rest(s') == q[1..] + other;
      Shifted(s.delivered, q, other);
    } else {
      assert Rest(s) == q && Rest(s') == q[1..];
      Shifted(s.delivered, q, []);
    }
  }

  lemma Shifted(d: seq<Job>, q: seq<Job>, other: seq<Job>)
    requires q != []
    ensures (d + [q[0]]) + (q[1..] + other) == d + (q + other)
    ensures q + [] == q && q[1..] + [] == q[1..]
  {
    assert q == [q[0]] + q[1..];
  }

  lemma SoloMove(s: State, a: Action, t: Thread)
    requires Alone(s, t) && Enabled(s, a) && !GivesUp(s, a)
    requires (a.StartDequeue? || a.MissFirst? || a.MissSecond?) && a.t == t
    ensures Drained(s, a, After(s, a), t)
  {
  }

  lemma SoloStep(s: State, a: Action, t: Thread)
    requires Alone(s, t) && Enabled(s, a) && !GivesUp(s, a)
    requires (a.StartDequeue? || a.Pop? || a.MissFirst? || a.MissSecond?) && a.t == t
    ensures Drained(s, a, After(s, a), t)
  {
    hide Drained, After, Alone, GivesUp;
    if a.Pop? {
      SoloPop(s, t);
    } else {
      SoloMove(s, a, t);
    }
  }

  lemma {:induction false} SoloRun(states: seq<State>, actions: seq<Action>, t: Thread, i: nat)
    requires IsSolo(states, actions, t) && Alone(states[0], t) && i <= |actions|
    ensures var s0, s := states[0], states[i];
            && Alone(s, t) && s.mode == s0.mode && s.enqueued == s0.enqueued && s.dropped == s0.dropped
            && s.migrating == s0.migrating && s.hand == s0.hand
            && s.delivered + Rest(s) == s0.delivered + Rest(s0) && |s.delivered| >= |s0.delivered|
            && (Rest(s) != [] ==> Answers(actions, i) == |s.delivered| - |s0.delivered|)
            && Answers(actions, i) >= |s.delivered| - |s0.delivered|
  {
    hide Alone, Rest, After, Enabled, GivesUp;
    if i > 0 {
      var k := i - 1;
      SoloRun(states, actions, t, k);
      SoloStep(states[k], actions[k], t);
    }
  }

  /**
    A lone dequeuer gets every remaining job, once each and in order, with one answer for each;
    only then is it told that the queue is empty, wherever earlier migrations left the jobs.
   */
  lemma DrainsInOrder(states: seq<State>, actions: seq<Action>, t: Thread, i: nat)
    requires IsSolo(states, actions, t) && Quiet(states[0], t) && i <= |actions|
    ensures var s0, n := states[0], Answers(actions, i);
            var got := if n < |Rest(s0)| then n else |Rest(s0)|;
            states[i].delivered == s0.delivered + Rest(s0)[..got] && Rest(states[i]) == Rest(s0)[got..]
    ensures i < |actions| && actions[i].MissSecond? ==> Rest(states[i]) == []
  {
    hide Rest, After, Enabled, GivesUp;
    var s0, s := states[0], states[i];
    SoloRun(states, actions, t, i);
    SplitsAt(s0.delivered, Rest(s0), s.delivered, Rest(s));
    if i < |actions| {
      SoloStep(states[i], actions[i], t);
    }
  }

  lemma SplitsAt(a: seq<Job>, b: seq<Job>, c: seq<Job>, d: seq<Job>)
    requires a + b == c + d && |a| <= |c|
    ensures |c| - |a| <= |b| && c == a + b[..|c| - |a|] && d == b[|c| - |a|..]
  {
    var k := |c| - |a|;
    assert (a + b)[..|c|] == c && (a + b)[|c|..] == d;
    assert (a + b)[..|c|] == a + b[..k] && (a + b)[|c|..] == b[k..];
  }

  /** So after as many calls as there are jobs, every accepted job is delivered or was lost by the migrator. */
  lemma DrainedEverything(states: seq<State>, actions: seq<Action>, t: Thread)
    requires IsSolo(states, actions, t) && Quiet(states[0], t) && Conserved(states[0])
    requires Answers(actions, |actions|) >= |states[0].mutexQ| + |states[0].lockFreeQ|
    ensures var s := states[|actions|];
            multiset(s.enqueued) == multiset(s.delivered) + multiset(s.dropped) && s.mutexQ == [] && s.lockFreeQ == []
  {
    hide After, Enabled, GivesUp;
    var s0, s := states[0], states[|actions|];
    DrainsInOrder(states, actions, t, |actions|);
    SoloRun(states, actions, t, |actions|);
    assert Rest(s0)[..|Rest(s0)|] == Rest(s0);
    assert multiset(s.delivered) == multiset(s0.delivered) + multiset(Rest(s0));
    RestCounts(s0);
  }

  lemma RestCounts(s: State)
    ensures multiset(Rest(s)) == multiset(s.mutexQ) + multiset(s.lockFreeQ)
  {
  }

  /** And it never gets stuck: each call answers within three steps. */
  lemma SoloCanCall(s: State, t: Thread) returns (states: seq<State>, actions: seq<Action>)
    requires Quiet(s, t)
    ensures IsSolo(states, actions, t) && states[0] == s && |actions| <= 3
    ensures Answers(actions, |actions|) == 1 && Quiet(states[|actions|], t)
  {
    var s1 := After(s, StartDequeue(t));
    if QueueOf(s, s.mode) != [] {
      states, actions := [s, s1, After(s1, Pop(t))], [StartDequeue(t), Pop(t)];
    } else {
      var s2 := After(s1, MissFirst(t));
      var a := if QueueOf(s, Other(s.mode)) != [] then Pop(t) else MissSecond(t);
      states, actions := [s, s1, s2, After(s2, a)], [StartDequeue(t), MissFirst(t), a];
    }
    OneAnswer(actions);
  }

  lemma OneAnswer(actions: seq<Action>)
    requires |actions| > 0 && (actions[|actions| - 1].Pop? || actions[|actions| - 1].MissSecond?)
    requires forall i :: 0 <= i < |actions| - 1 ==> actions[i].StartDequeue? || actions[i].MissFirst?
    ensures Answers(actions, |actions|) == 1
  {
    NoAnswer(actions, |actions| - 1);
  }

  lemma {:induction false} NoAnswer(actions: seq<Action>, i: nat)
    requires i <= |actions| && forall k :: 0 <= k < i ==> actions[k].StartDequeue? || actions[k].MissFirst?
    ensures Answers(actions, i) == 0
  {
    if i > 0 {
      NoAnswer(actions, i - 1);
    }
  }
}
