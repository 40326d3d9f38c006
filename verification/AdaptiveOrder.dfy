/** The order of jobs in the adaptive queue, over all interleavings of callers and migrator. */
module AdaptiveOrder {
  import opened AdaptiveQueue
  import opened JobQueue
  import opened AdaptiveRuns

  // ---------------------------------------------------------------- each sub-queue is a FIFO

  datatype Effect = Keep | Append(job: Job) | RemoveFirst | RemoveAll

  ghost predicate FifoStep(e: Effect, q: seq<Job>, q': seq<Job>) {
    match e
    case Keep => q' == q
    case Append(job) => q' == q + [job]
    case RemoveFirst => q != [] && q' == q[1..]
    case RemoveAll => q' == []
  }

  /** The sub-queue refuses a job at step `i`: a stop has reached the mutex queue, or the lock-free one is busy. */
  ghost predicate RefusedAt(actions: seq<Action>, i: nat, m: Mode)
    requires i < |actions| && (actions[i].Push? || actions[i].PutDown?)
  {
    if m == MutexMode then exists k :: 0 <= k < i && actions[k] == StopMutex else actions[i].busy
  }

  /** What step `i` does to the sub-queue `m`. */
  ghost function EffectAt(states: seq<State>, actions: seq<Action>, i: nat, m: Mode): Effect
    requires IsRun(states, actions) && i < |actions|
  {
    var s := states[i];
    match actions[i]
    case Push(t, busy) => if s.calls[t].to == m && !RefusedAt(actions, i, m) then Append(s.calls[t].job) else Keep
    case Pop(t) => if s.calls[t].from == m then RemoveFirst else Keep
    case TakeOne => if m == LockFreeMode then RemoveFirst else Keep
    case TakeAll => if m == MutexMode then RemoveAll else Keep
    case PutDown(busy) => if s.mode == m && !RefusedAt(actions, i, m) then Append(s.hand[0]) else Keep
    case _ => Keep
  }

  lemma TakesUnlessRefused(states: seq<State>, actions: seq<Action>, i: nat, m: Mode)
    requires IsRun(states, actions) && i < |actions| && (actions[i].Push? || actions[i].PutDown?)
    ensures Takes(states[i], m, actions[i].busy) <==> !RefusedAt(actions, i, m)
  {
    hide After, Enabled;
    StoppedIff(states, actions, i);
  }

  /** In every run, each step does to each sub-queue what a FIFO allows. */
  lemma SubQueueIsFifo(states: seq<State>, actions: seq<Action>, i: nat, m: Mode)
    requires IsRun(states, actions) && i < |actions|
    ensures FifoStep(EffectAt(states, actions, i, m), QueueOf(states[i], m), QueueOf(states[i + 1], m))
  {
    hide RefusedAt;
    var s, a := states[i], actions[i];
    match a
    case Push(t, busy) =>
      TakesUnlessRefused(states, actions, i, m);
      if Takes(s, s.calls[t].to, busy) {
        PushParts(s, t, busy);
      } else {
        assert QueueOf(states[i + 1], m) == QueueOf(s, m);
      }
      hide After, QueueOf, Takes;
    case PutDown(busy) =>
      TakesUnlessRefused(states, actions, i, m);
      PutDownParts(s, busy);
      hide After, QueueOf, Takes;
    case Pop(t) =>
      PopParts(s, t);
      hide After, QueueOf;
    case _ =>
  }

  /** Where the jobs go: an accepted push is recorded, a popped job is delivered, a taken one is in hand. */
  lemma JobsGo(states: seq<State>, actions: seq<Action>, i: nat)
    requires IsRun(states, actions) && i < |actions|
    ensures var s, s', a := states[i], states[i + 1], actions[i];
            && s'.delivered == (if a.Pop? then s.delivered + [QueueOf(s, s.calls[a.t].from)[0]] else s.delivered)
            && s'.enqueued == (if a.Push? && !RefusedAt(actions, i, s.calls[a.t].to)
                               then s.enqueued + [s.calls[a.t].job] else s.enqueued)
            && (a == TakeOne ==> s'.hand == [s.lockFreeQ[0]]) && (a == TakeAll ==> s'.hand == s.mutexQ)
            && (a.PutDown? ==> s'.hand == s.hand[1..])
  {
    hide RefusedAt;
    if actions[i].Push? {
      TakesUnlessRefused(states, actions, i, states[i].calls[actions[i].t].to);
    }
  }

  // ---------------------------------------------------------------- mode and flags

  /** The target of the last migration that began in the first `n` steps. */
  function LastTarget(actions: seq<Action>, n: nat): Mode
    requires n <= |actions|
  {
    if n == 0 then MutexMode
    else if actions[n - 1].StartMigration? then actions[n - 1].target else LastTarget(actions, n - 1)
  }

  /** A migration began in the first `n` steps and has not ended. */
  predicate InMigration(actions: seq<Action>, n: nat)
    requires n <= |actions|
  {
    n > 0 && (actions[n - 1].StartMigration? || (!actions[n - 1].EndMigration? && InMigration(actions, n - 1)))
  }

  /** The mode is that of the last migration begun, and the flags say what happened so far. */
  lemma {:induction false} FlagsAre(states: seq<State>, actions: seq<Action>, n: nat)
    requires IsRun(states, actions) && n <= |actions|
    ensures states[n].mode == LastTarget(actions, n) && (states[n].migrating <==> InMigration(actions, n))
    ensures states[n].stopped <==> exists k :: 0 <= k < n && actions[k] == Stop
    ensures n < |actions| && (actions[n].StartEnqueue? || actions[n].StartDequeue?) ==>
              forall k :: 0 <= k < n ==> actions[k] != Stop
  {
    hide After, Enabled;
    if n > 0 {
      FlagsAre(states, actions, n - 1);
      FlagStep(states[n - 1], actions[n - 1]);
    }
    if n < |actions| && (actions[n].StartEnqueue? || actions[n].StartDequeue?) {
      StartsUnlessStopped(states[n], actions[n]);
    }
  }

  lemma StartsUnlessStopped(s: State, a: Action)
    requires Enabled(s, a) && (a.StartEnqueue? || a.StartDequeue?)
    ensures !s.stopped
  {
  }

  lemma FlagStep(s: State, a: Action)
    requires Enabled(s, a)
    ensures After(s, a).mode == if a.StartMigration? then a.target else s.mode
    ensures After(s, a).migrating <==> a.StartMigration? || (s.migrating && !a.EndMigration?)
    ensures After(s, a).stopped <==> s.stopped || a == Stop
  {
    hide Takes, QueueOf;
  }

  // ---------------------------------------------------------------- which sub-queue a call uses

  /** Step `b` started the call that `t` is in after `i` steps. */
  ghost predicate Since(states: seq<State>, actions: seq<Action>, b: nat, i: nat, t: Thread)
    requires b < i <= |actions| < |states|
  {
    && (actions[b].StartEnqueue? || actions[b].StartDequeue?) && actions[b].t == t
    && forall k :: b < k <= i ==> t in states[k].calls
  }

  lemma CallStep(s: State, a: Action, t: Thread)
    requires Enabled(s, a) && t in After(s, a).calls
    ensures t !in s.calls ==> a == StartDequeue(t) || (a.StartEnqueue? && a.t == t)
    ensures t in s.calls ==>
              || After(s, a).calls[t] == s.calls[t]
              || (a == MissFirst(t) && s.calls[t].Dequeuing? && !s.calls[t].second
                  && After(s, a).calls[t] == Dequeuing(Other(s.calls[t].from), true))
  {
    hide Takes;
  }

  /** Every call in progress has a step that started it. */
  lemma {:induction false} CallBegan(states: seq<State>, actions: seq<Action>, i: nat, t: Thread)
    requires IsRun(states, actions) && i <= |actions| && t in states[i].calls
    ensures exists b :: 0 <= b < i && Since(states, actions, b, i, t)
  {
    hide After, Enabled;
    if i > 0 {
      CallStep(states[i - 1], actions[i - 1], t);
      if t in states[i - 1].calls {
        CallBegan(states, actions, i - 1, t);
        var b :| 0 <= b < i - 1 && Since(states, actions, b, i - 1, t);
        assert Since(states, actions, b, i, t);
      } else {
        assert Since(states, actions, i - 1, i, t);
      }
    }
  }

  lemma CallStarts(s: State, a: Action)
    requires Enabled(s, a) && (a.StartEnqueue? || a.StartDequeue?)
    ensures a.t in After(s, a).calls
    ensures After(s, a).calls[a.t] == if a.StartEnqueue? then Enqueuing(a.job, s.mode) else Dequeuing(s.mode, false)
  {
  }

  /**
    A call keeps to the mode it read when it started: an enqueue holds its job for that queue,
    a dequeue looks there first and in the other queue only after missing there.
   */
  lemma {:induction false} CallKeepsMode(states: seq<State>, actions: seq<Action>, b: nat, i: nat, t: Thread)
    requires IsRun(states, actions) && b < i <= |actions| && Since(states, actions, b, i, t)
    ensures actions[b].StartEnqueue? ==> states[i].calls[t] == Enqueuing(actions[b].job, states[b].mode)
    ensures actions[b].StartDequeue? ==>
              || states[i].calls[t] == Dequeuing(states[b].mode, false)
              || (states[i].calls[t] == Dequeuing(Other(states[b].mode), true)
                  && exists k :: b < k < i && actions[k] == MissFirst(t))
    decreases i
  {
    hide After, Enabled;
    if i == b + 1 {
      CallStarts(states[b], actions[b]);
    } else {
      CallKeepsMode(states, actions, b, i - 1, t);
      assert t in states[i].calls;
      CallStep(states[i - 1], actions[i - 1], t);
    }
  }

  /** An enqueue that is accepted puts its job last in the queue of the mode it read, and touches no other. */
  lemma PushLandsLast(states: seq<State>, actions: seq<Action>, b: nat, i: nat, t: Thread, job: Job, busy: bool)
    requires IsRun(states, actions) && b < i < |actions| && Since(states, actions, b, i, t)
    requires actions[b] == StartEnqueue(t, job) && actions[i] == Push(t, busy)
    ensures var m := states[b].mode;
            && QueueOf(states[i + 1], Other(m)) == QueueOf(states[i], Other(m))
            && (if RefusedAt(actions, i, m)
                then QueueOf(states[i + 1], m) == QueueOf(states[i], m) && states[i + 1].enqueued == states[i].enqueued
                else QueueOf(states[i + 1], m) == QueueOf(states[i], m) + [job]
                     && states[i + 1].enqueued == states[i].enqueued + [job])
  {
    hide After, Enabled, QueueOf, RefusedAt;
    CallKeepsMode(states, actions, b, i, t);
    SubQueueIsFifo(states, actions, i, states[b].mode);
    SubQueueIsFifo(states, actions, i, Other(states[b].mode));
    JobsGo(states, actions, i);
  }

  // ---------------------------------------------------------------- one line for both queues

  /** All undelivered jobs, in the order in which they are to come out. */
  function Line(s: State): seq<Job> {
    QueueOf(s, s.mode) + s.hand + QueueOf(s, Other(s.mode))
  }

  /** Delivered so far and still waiting are, in order, what was enqueued. */
  predicate InLine(s: State) {
    s.delivered + Line(s) == s.enqueued
  }

  /**
    The step jumps no line: an accepted push finds nothing behind it, a pop nothing ahead of it, a
    migration starts with one queue empty, and the migrator loses nothing.
   */
  predicate KeepsLine(s: State, a: Action)
    requires Enabled(s, a)
  {
    match a
    case Push(t, busy) =>
      Takes(s, s.calls[t].to, busy) && s.calls[t].to == s.mode ==> s.hand == [] && QueueOf(s, Other(s.mode)) == []
    case Pop(t) => s.calls[t].from == s.mode || (QueueOf(s, s.mode) == [] && s.hand == [])
    case StartMigration(target) => s.mutexQ == [] || s.lockFreeQ == []
    case PutDown(busy) => Takes(s, s.mode, busy)
    case _ => true
  }

  predicate Distinct(q: seq<Job>) {
    forall i, j :: 0 <= i < j < |q| ==> q[i] != q[j]
  }

  /** A job put behind `q`, with `h` and `o` behind it, is in line exactly when those are empty. */
  lemma PutIn(d: seq<Job>, q: seq<Job>, h: seq<Job>, o: seq<Job>, e: seq<Job>, job: Job)
    requires d + (q + h + o) == e
    ensures h == [] && o == [] ==> d + ((q + [job]) + h + o) == e + [job]
    ensures d + ((q + [job]) + h + o) == e + [job] && Distinct(e + [job]) ==> h == [] && o == []
    ensures d + (q + h + (o + [job])) == e + [job]
  {
    assert d + (q + h + (o + [job])) == (d + (q + h + o)) + [job];
    var x, y := d + ((q + [job]) + h + o), e + [job];
    assert x[|d| + |q|] == job && y[|y| - 1] == job;
  }

  /** A job taken from the front of `o`, with `q` and `h` ahead of it, is in line exactly when those are empty. */
  lemma TakenOut(d: seq<Job>, q: seq<Job>, h: seq<Job>, o: seq<Job>, e: seq<Job>)
    requires d + (q + h + o) == e && o != []
    ensures q == [] && h == [] ==> (d + [o[0]]) + (q + h + o[1..]) == e
    ensures (d + [o[0]]) + (q + h + o[1..]) == e && Distinct(e) ==> q == [] && h == []
  {
    assert o == [o[0]] + o[1..];
    var x := (d + [o[0]]) + (q + h + o[1..]);
    assert x[|d|] == o[0] && e[|d| + |q| + |h|] == o[0];
  }

  lemma TakenFirst(d: seq<Job>, q: seq<Job>, h: seq<Job>, o: seq<Job>)
    requires q != []
    ensures (d + [q[0]]) + (q[1..] + h + o) == d + (q + h + o)
  {
    assert q == [q[0]] + q[1..];
  }

  /** A push leaves everything but one queue and the record alone. */
  lemma PushParts(s: State, t: Thread, busy: bool)
    requires Enabled(s, Push(t, busy)) && Takes(s, s.calls[t].to, busy)
    ensures var s', m, job := After(s, Push(t, busy)), s.calls[t].to, s.calls[t].job;
            && s'.mode == s.mode && s'.hand == s.hand && s'.delivered == s.delivered
            && s'.enqueued == s.enqueued + [job]
            && QueueOf(s', m) == QueueOf(s, m) + [job] && QueueOf(s', Other(m)) == QueueOf(s, Other(m))
  {
  }

  lemma PushLine(s: State, t: Thread, busy: bool)
    requires Enabled(s, Push(t, busy)) && InLine(s) && Takes(s, s.calls[t].to, busy)
    ensures var s' := After(s, Push(t, busy));
            && (KeepsLine(s, Push(t, busy)) ==> InLine(s'))
            && (InLine(s') && Distinct(s'.enqueued) ==> KeepsLine(s, Push(t, busy)))
  {
    PushParts(s, t, busy);
    PutIn(s.delivered, QueueOf(s, s.mode), s.hand, QueueOf(s, Other(s.mode)), s.enqueued, s.calls[t].job);
    assert s.calls[t].to == s.mode || s.calls[t].to == Other(s.mode);
    hide After, QueueOf, Distinct, Takes;
  }

  lemma PopParts(s: State, t: Thread)
    requires Enabled(s, Pop(t))
    ensures var s', m := After(s, Pop(t)), s.calls[t].from;
            && s'.mode == s.mode && s'.hand == s.hand && s'.enqueued == s.enqueued
            && QueueOf(s, m) != [] && s'.delivered == s.delivered + [QueueOf(s, m)[0]]
            && QueueOf(s', m) == QueueOf(s, m)[1..] && QueueOf(s', Other(m)) == QueueOf(s, Other(m))
  {
  }

  lemma PopLine(s: State, t: Thread)
    requires Enabled(s, Pop(t)) && InLine(s)
    ensures var s' := After(s, Pop(t));
            && (KeepsLine(s, Pop(t)) ==> InLine(s'))
            && (InLine(s') && Distinct(s'.enqueued) ==> KeepsLine(s, Pop(t)))
  {
    PopParts(s, t);
    var q, h, o := QueueOf(s, s.mode), s.hand, QueueOf(s, Other(s.mode));
    if s.calls[t].from == s.mode {
      TakenFirst(s.delivered, q, h, o);
    } else {
      assert s.calls[t].from == Other(s.mode) && Other(Other(s.mode)) == s.mode;
      TakenOut(s.delivered, q, h, o, s.enqueued);
    }
    hide After, QueueOf, Distinct;
  }

  lemma MigrationLine(s: State, target: Mode)
    requires Enabled(s, StartMigration(target)) && InLine(s) && s.hand == []
    ensures var s' := After(s, StartMigration(target));
            && (KeepsLine(s, StartMigration(target)) ==> InLine(s'))
            && (InLine(s') && Distinct(s'.enqueued) ==> KeepsLine(s, StartMigration(target)))
  {
    var s' := After(s, StartMigration(target));
    var q, o := QueueOf(s, s.mode), QueueOf(s, Other(s.mode));
    assert Line(s) == q + [] + o && Line(s') == o + [] + q;
    hide Line, Distinct;
    Exchanged(s.delivered, q, o, s.enqueued);
  }

  /** Two queues can change places only when one of them is empty. */
  lemma Exchanged(d: seq<Job>, q: seq<Job>, o: seq<Job>, e: seq<Job>)
    requires d + (q + [] + o) == e
    ensures q == [] || o == [] ==> d + (o + [] + q) == e
    ensures d + (o + [] + q) == e && Distinct(e) ==> q == [] || o == []
  {
    if q == [] || o == [] {
      assert o + [] + q == q + [] + o;
    } else {
      var x := d + (o + [] + q);
      assert x[|d|] == o[0] && e[|d| + |q|] == o[0];
    }
  }

  lemma TakeLine(s: State, a: Action)
    requires Enabled(s, a) && InLine(s) && (a.TakeOne? || a.TakeAll?)
    ensures InLine(After(s, a))
  {
    var s' := After(s, a);
    InHand(s.mutexQ, s.lockFreeQ);
    if a.TakeOne? {
      assert Line(s) == s.mutexQ + [] + s.lockFreeQ && Line(s') == s.mutexQ + [s.lockFreeQ[0]] + s.lockFreeQ[1..];
    } else {
      InHand(s.lockFreeQ, s.mutexQ);
      assert Line(s) == s.lockFreeQ + [] + s.mutexQ && Line(s') == s.lockFreeQ + s.mutexQ + [];
    }
    hide Line;
  }

  lemma InHand(q: seq<Job>, o: seq<Job>)
    ensures q + [] + o == q + o + []
    ensures o != [] ==> q + [] + o == q + [o[0]] + o[1..]
  {
    if o != [] {
      assert o == [o[0]] + o[1..];
    }
  }

  lemma PutDownParts(s: State, busy: bool)
    requires Enabled(s, PutDown(busy))
    ensures var s' := After(s, PutDown(busy));
            && s'.mode == s.mode && s'.hand == s.hand[1..] && s'.enqueued == s.enqueued && s'.delivered == s.delivered
            && QueueOf(s', Other(s.mode)) == QueueOf(s, Other(s.mode))
            && QueueOf(s', s.mode)
               == QueueOf(s, s.mode) + if Takes(s, s.mode, busy) then [s.hand[0]] else []
  {
  }

  lemma PutDownLine(s: State, busy: bool)
    requires Enabled(s, PutDown(busy)) && InLine(s)
    ensures Takes(s, s.mode, busy) <==> InLine(After(s, PutDown(busy)))
  {
    var s' := After(s, PutDown(busy));
    PutDownParts(s, busy);
    hide After, QueueOf;
    assert s.hand == [s.hand[0]] + s.hand[1..];
    if Takes(s, s.mode, busy) {
      assert Line(s') == Line(s);
    } else {
      assert |Line(s')| == |Line(s)| - 1;
    }
    hide Takes;
  }

  /** From a state in line, a step stays in line if, and with distinct jobs only if, it jumps no line. */
  lemma StepLine(s: State, a: Action)
    requires Enabled(s, a) && InLine(s) && Conserved(s)
    ensures KeepsLine(s, a) ==> InLine(After(s, a))
    ensures InLine(After(s, a)) && Distinct(After(s, a).enqueued) ==> KeepsLine(s, a)
  {
    match a
    case Push(t, busy) =>
      if Takes(s, s.calls[t].to, busy) {
        PushLine(s, t, busy);
      } else {
        assert Line(After(s, a)) == Line(s);
      }
    case Pop(t) => PopLine(s, t);
    case StartMigration(target) => MigrationLine(s, target);
    case TakeOne => TakeLine(s, a);
    case TakeAll => TakeLine(s, a);
    case PutDown(busy) => PutDownLine(s, busy);
    case _ => assert Line(After(s, a)) == Line(s);
  }

  /** A run in which no step jumps the line delivers in the order of enqueueing. */
  lemma {:induction false} OrderedRun(states: seq<State>, actions: seq<Action>, n: nat)
    requires IsRun(states, actions) && n <= |actions|
    requires forall i :: 0 <= i < n ==> KeepsLine(states[i], actions[i])
    ensures InLine(states[n])
  {
    hide After, Enabled, KeepsLine, Conserved;
    if n > 0 {
      OrderedRun(states, actions, n - 1);
      RunConserves(states, actions, n - 1);
      hide InLine;
      StepLine(states[n - 1], actions[n - 1]);
    }
  }

  /**
    When all jobs differ, the two queues together act as one FIFO throughout a run exactly when no
    step of it jumps the line.
   */
  lemma {:induction false} OneFifoIff(states: seq<State>, actions: seq<Action>, n: nat)
    requires IsRun(states, actions) && n <= |actions| && Distinct(states[n].enqueued)
    ensures (forall i :: 0 <= i <= n ==> InLine(states[i])) <==>
              (forall i :: 0 <= i < n ==> KeepsLine(states[i], actions[i]))
  {
    hide After, Enabled, KeepsLine, Conserved;
    if forall i :: 0 <= i < n ==> KeepsLine(states[i], actions[i]) {
      forall i | 0 <= i <= n
        ensures InLine(states[i])
      {
        OrderedRun(states, actions, i);
      }
    } else if forall i :: 0 <= i <= n ==> InLine(states[i]) {
      forall i | 0 <= i < n
        ensures KeepsLine(states[i], actions[i])
      {
        RunConserves(states, actions, i);
        EnqueuedGrows(states, actions, i + 1, n);
        PrefixDistinct(states[i + 1].enqueued, states[n].enqueued);
        StepLine(states[i], actions[i]);
      }
    }
  }

  lemma {:induction false} EnqueuedGrows(states: seq<State>, actions: seq<Action>, i: nat, n: nat)
    requires IsRun(states, actions) && i <= n <= |actions|
    ensures states[i].enqueued <= states[n].enqueued
    decreases n
  {
    hide Enabled, After, QueueOf, RefusedAt;
    if i < n {
      EnqueuedGrows(states, actions, i, n - 1);
      JobsGo(states, actions, n - 1);
    }
  }

  lemma PrefixDistinct(p: seq<Job>, q: seq<Job>)
    requires p <= q && Distinct(q)
    ensures Distinct(p)
  {
  }

  /** A job can overtake: enqueued while a migration is under way, it is delivered before an older one. */
  lemma Overtakes() returns (states: seq<State>, actions: seq<Action>)
    ensures IsRun(states, actions) && states[|actions|].enqueued == [10, 20] && states[|actions|].delivered == [20]
  {
    actions := [StartEnqueue(1, 10), Push(1, false), StartMigration(LockFreeMode), StartEnqueue(2, 20), Push(2, false),
                StartDequeue(3), Pop(3)];
    var s1 := Initial.(calls := map[1 := Enqueuing(10, MutexMode)]);
    var s2 := Initial.(mutexQ := [10], enqueued := [10]);
    var s3 := s2.(mode := LockFreeMode, migrating := true);
    var s4 := s3.(calls := map[2 := Enqueuing(20, LockFreeMode)]);
    var s5 := s3.(lockFreeQ := [20], enqueued := [10, 20]);
    var s6 := s5.(calls := map[3 := Dequeuing(LockFreeMode, false)]);
    var s7 := s5.(lockFreeQ := [], delivered := [20]);
    states := [Initial, s1, s2, s3, s4, s5, s6, s7];
    EnqueuesTen();
    EnqueuesTwenty(s3);
    assert StepTo(s2, actions[2], s3);
    assert StepTo(s5, actions[5], s6) && StepTo(s6, actions[6], s7);
    hide Enabled, After;
  }

  predicate StepTo(s: State, a: Action, s': State) {
    Enabled(s, a) && After(s, a) == s'
  }

  lemma EnqueuesTwenty(s: State)
    requires s.mode == LockFreeMode && s.calls == map[] && !s.stopped && s.lockFreeQ == [] && s.enqueued == [10]
    ensures var s' := s.(calls := map[2 := Enqueuing(20, LockFreeMode)]);
            && StepTo(s, StartEnqueue(2, 20), s')
            && StepTo(s', Push(2, false), s.(lockFreeQ := [20], enqueued := [10, 20]))
  {
  }

  lemma EnqueuesTen()
    ensures var s := Initial.(calls := map[1 := Enqueuing(10, MutexMode)]);
            && StepTo(Initial, StartEnqueue(1, 10), s)
            && StepTo(s, Push(1, false), Initial.(mutexQ := [10], enqueued := [10]))
  {
  }

  /** Without a migration everything passes through the mutex queue, in order. */
  lemma WithoutMigration(states: seq<State>, actions: seq<Action>, n: nat)
    requires IsRun(states, actions) && n <= |actions|
    requires forall i :: 0 <= i < n ==> !actions[i].StartMigration?
    ensures states[n].delivered + states[n].mutexQ == states[n].enqueued
    ensures states[n].lockFreeQ == [] && states[n].hand == [] && states[n].dropped == []
  {
    hide After, Enabled, KeepsLine;
    forall i | 0 <= i < n
      ensures KeepsLine(states[i], actions[i])
    {
      MutexOnly(states, actions, i);
      MutexKeepsLine(states[i], actions[i]);
    }
    OrderedRun(states, actions, n);
    MutexOnly(states, actions, n);
  }

  ghost predicate OnlyMutex(s: State) {
    && s.mode == MutexMode && !s.migrating && s.lockFreeQ == [] && s.hand == [] && s.dropped == []
    && forall t :: t in s.calls && s.calls[t].Enqueuing? ==> s.calls[t].to == MutexMode
  }

  lemma MutexKeepsLine(s: State, a: Action)
    requires OnlyMutex(s) && Enabled(s, a) && !a.StartMigration?
    ensures KeepsLine(s, a)
  {
  }

  lemma MutexStep(s: State, a: Action)
    requires OnlyMutex(s) && Enabled(s, a) && !a.StartMigration?
    ensures OnlyMutex(After(s, a))
  {
  }

  lemma {:induction false} MutexOnly(states: seq<State>, actions: seq<Action>, i: nat)
    requires IsRun(states, actions) && i <= |actions|
    requires forall k :: 0 <= k < i ==> !actions[k].StartMigration?
    ensures OnlyMutex(states[i])
  {
    hide After, Enabled;
    if i > 0 {
      MutexOnly(states, actions, i - 1);
      MutexStep(states[i - 1], actions[i - 1]);
    }
  }
}
