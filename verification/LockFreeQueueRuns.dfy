/** The theorems of the lock-free queue, stated over whole runs. */
module LockFreeQueueRuns {
  import opened LockFreeQueue
  import opened Wrappers
  import opened LockFreeQueueInvariant
  import opened LockFreeQueueSteps
  import opened LockFreeQueueScan
  import opened LockFreeQueueTheorems

  /** The auxiliary history after `i` steps of a run. */
  ghost function AuxAt(states: seq<State>, actions: seq<Action>, dummy: Node, i: nat): Aux
    requires IsRun(states, actions, dummy) && i <= |actions|
  {
    if i == 0 then InitAux(dummy)
    else AuxAfter(states[i - 1], AuxAt(states, actions, dummy, i - 1), actions[i - 1])
  }

  lemma {:induction false} RunInv(states: seq<State>, actions: seq<Action>, dummy: Node, i: nat)
    requires IsRun(states, actions, dummy) && i <= |actions|
    ensures Inv(states[i], AuxAt(states, actions, dummy, i))
  {
    hide Inv;
    if i == 0 {
      InitKeeps(states[0], dummy);
    } else {
      RunInv(states, actions, dummy, i - 1);
      StepKeeps(states[i - 1], AuxAt(states, actions, dummy, i - 1), actions[i - 1]);
    }
  }

  // ---------------------------------------------------------------- FIFO

  /** Every step of every run is a step of a FIFO queue that starts empty. */
  lemma RunIsFifo(states: seq<State>, actions: seq<Action>, dummy: Node)
    requires IsRun(states, actions, dummy)
    ensures Contents(states[0]) == []
    ensures forall i :: 0 <= i < |actions| ==>
              FifoStep(EffectOf(states[i], actions[i]), Contents(states[i]), Contents(states[i + 1]))
  {
    hide Inv, EffectOf, FifoStep, Contents;
    RunInv(states, actions, dummy, 0);
    ContentsAre(states[0], InitAux(dummy));
    forall i | 0 <= i < |actions|
      ensures FifoStep(EffectOf(states[i], actions[i]), Contents(states[i]), Contents(states[i + 1]))
    {
      RunInv(states, actions, dummy, i);
      StepRefines(states[i], AuxAt(states, actions, dummy, i), actions[i]);
    }
  }

  /** The jobs linked in the first `n` steps, in order. */
  ghost function LinkedJobs(states: seq<State>, actions: seq<Action>, dummy: Node, n: nat): seq<Job>
    requires IsRun(states, actions, dummy) && n <= |actions|
  {
    if n == 0 then []
    else
      var js := LinkedJobs(states, actions, dummy, n - 1);
      match EffectOf(states[n - 1], actions[n - 1])
      case Append(job) => js + [job]
      case _ => js
  }

  /** The jobs at the front of the queue when `head` was swung, in order. */
  ghost function RemovedJobs(states: seq<State>, actions: seq<Action>, dummy: Node, n: nat): seq<Job>
    requires IsRun(states, actions, dummy) && n <= |actions|
  {
    if n == 0 then []
    else
      var js := RemovedJobs(states, actions, dummy, n - 1);
      if EffectOf(states[n - 1], actions[n - 1]).RemoveFirst? && Contents(states[n - 1]) != []
      then js + [Contents(states[n - 1])[0]]
      else js
  }

  /** No job is lost, duplicated or reordered between linking and removal. */
  lemma {:induction false} JobsConserved(states: seq<State>, actions: seq<Action>, dummy: Node, n: nat)
    requires IsRun(states, actions, dummy) && n <= |actions|
    ensures LinkedJobs(states, actions, dummy, n)
            == RemovedJobs(states, actions, dummy, n) + Contents(states[n])
  {
    hide Contents, EffectOf, IsRun;
    RunIsFifo(states, actions, dummy);
    if n > 0 {
      JobsConserved(states, actions, dummy, n - 1);
    }
  }

  // ---------------------------------------------------------------- delivery

  predicate InDequeue(pc: Pc) {
    pc != Idle && !InEnqueue(pc)
  }

  /** Step `i` is the return of thread `t` from `dequeue` with the given answer. */
  predicate Returns(states: seq<State>, actions: seq<Action>, i: nat, t: Thread, outcome: Outcome)
    requires i < |actions| < |states|
  {
    && actions[i].Run? && actions[i].t == t && t in states[i].threads
    && states[i].threads[t].pc == DReleaseHead && states[i].threads[t].outcome == outcome
  }

  /** Thread `t` removed `job` at step `k` and has been on its way to return it since. */
  ghost predicate RemovedAt(states: seq<State>, actions: seq<Action>, dummy: Node,
                            k: nat, i: nat, t: Thread, job: Job)
    requires IsRun(states, actions, dummy) && i <= |actions|
  {
    && k < i && actions[k].Run? && actions[k].t == t
    && EffectOf(states[k], actions[k]).RemoveFirst?
    && Contents(states[k]) != [] && Contents(states[k])[0] == job
    && forall m :: k < m <= i ==> t in states[m].threads && Carries(states[m].threads[t])
  }

  // ---------------------------------------------------------------- program order of one thread

  lemma EnqueueLocal(s: State, t: Thread, weak: bool, link: Node)
    requires t in s.threads && Derefs(s.threads[t]) <= s.next.Keys && InEnqueue(s.threads[t].pc)
    requires !Claiming(s.threads[t].pc) && !Collecting(s.threads[t].pc)
    ensures var s' := EnqueueStep(s, t, weak, link);
            && t in s'.threads && s'.threads == s.threads[t := s'.threads[t]]
            && (InEnqueue(s'.threads[t].pc) || s'.threads[t].pc == Idle)
  {
  }

  lemma DequeueLocal(s: State, t: Thread, weak: bool)
    requires t in s.threads && Derefs(s.threads[t]) <= s.next.Keys && InDequeue(s.threads[t].pc)
    requires !Claiming(s.threads[t].pc) && !Collecting(s.threads[t].pc)
    ensures var s' := DequeueStep(s, t, weak); t in s'.threads && s'.threads == s.threads[t := s'.threads[t]]
  {
    if s.threads[t].pc in {DRecheck, DHelp, DSwing, DTake, DRetire, DCount, DReleaseNext, DReleaseHead} {
      FinishLocal(s, t, weak);
    } else {
      SearchLocal(s, t, weak);
    }
    hide DequeueStep;
  }

  lemma FinishLocal(s: State, t: Thread, weak: bool)
    requires t in s.threads && Derefs(s.threads[t]) <= s.next.Keys
    requires s.threads[t].pc in
               {DRecheck, DHelp, DSwing, DTake, DRetire, DCount, DReleaseNext, DReleaseHead}
    ensures var s' := DequeueStep(s, t, weak); t in s'.threads && s'.threads == s.threads[t := s'.threads[t]]
  {
    hide RetryDequeue, Derefs, Threshold, LoadHead, ProtectHead, ValidateHead, ReadTail,
      LoadHeadNext, ProtectNext, VerifyNext;
  }

  lemma SearchLocal(s: State, t: Thread, weak: bool)
    requires t in s.threads && Derefs(s.threads[t]) <= s.next.Keys
    requires s.threads[t].pc in
               {DLoadHead, DProtectHead, DValidate, DLoadTail, DLoadNext, DProtectNext, DVerifyNext}
    ensures var s' := DequeueStep(s, t, weak); t in s'.threads && s'.threads == s.threads[t := s'.threads[t]]
  {
    hide RetryDequeue, Derefs, RecheckHead, HelpDequeue, SwingHead, Take, Retire, CountDown, ReleaseNext, ReleaseHead;
  }

  /** A dequeuer carries a job only after swinging `head`. */
  lemma DequeueCarries(s: State, t: Thread, weak: bool)
    requires t in s.threads && Derefs(s.threads[t]) <= s.next.Keys && InDequeue(s.threads[t].pc)
    requires !Claiming(s.threads[t].pc) && !Collecting(s.threads[t].pc)
    requires t in DequeueStep(s, t, weak).threads && Carries(DequeueStep(s, t, weak).threads[t])
    ensures Carries(s.threads[t]) || (s.threads[t].pc == DSwing && s.head == s.threads[t].head && !weak)
  {
    hide Derefs, Threshold, Take, Retire, CountDown;
    RetryCarriesNothing(s.threads[t]);
    hide RetryDequeue;
  }

  lemma RetryCarriesNothing(l: Local)
    ensures !Carries(RetryDequeue(l))
  {
  }

  lemma RunTaken(s: State, g: Aux, t: Thread, weak: bool)
    requires t in s.threads && Derefs(s.threads[t]) <= s.next.Keys
    ensures s.threads[t].pc != DSwing ==> AuxRun(s, g, t, weak).taken == g.taken
    ensures forall u :: u in g.taken && u != t ==>
              u in AuxRun(s, g, t, weak).taken && AuxRun(s, g, t, weak).taken[u] == g.taken[u]
  {
  }

  /** A step leaves the other threads alone. */
  lemma OthersStay(s: State, a: Action, u: Thread)
    requires Enabled(s, a) && Actor(s, a) != Some(u)
    ensures u in s.threads <==> u in After(s, a).threads
    ensures u in s.threads ==> After(s, a).threads[u] == s.threads[u]
  {
    if a.Run? {
      if InEnqueue(s.threads[a.t].pc) {
        EnqueueLocal(s, a.t, a.weak, a.link);
      } else {
        DequeueLocal(s, a.t, a.weak);
      }
    }
    hide EnqueueStep, DequeueStep, Derefs;
  }

  /** Only starting a dequeue brings a thread into one. */
  lemma EntersDequeue(s: State, a: Action, t: Thread)
    requires Enabled(s, a) && t in After(s, a).threads && InDequeue(After(s, a).threads[t].pc)
    ensures t in s.threads && (InDequeue(s.threads[t].pc) || a == StartDequeue(t))
  {
    hide EnqueueStep, DequeueStep;
    if Actor(s, a) != Some(t) {
      OthersStay(s, a, t);
    } else if a.Run? {
      if InEnqueue(s.threads[t].pc) {
        EnqueueLocal(s, t, a.weak, a.link);
      }
    }
  }

  /** A thread carries a job because it did before, or because it just swung `head`. */
  lemma StartsCarrying(s: State, a: Action, t: Thread)
    requires Enabled(s, a) && t in After(s, a).threads && Carries(After(s, a).threads[t])
    ensures t in s.threads
    ensures Carries(s.threads[t]) || (a.Run? && a.t == t && EffectOf(s, a).RemoveFirst?)
  {
    hide EnqueueStep, DequeueStep;
    if Actor(s, a) != Some(t) {
      OthersStay(s, a, t);
    } else if a.Run? {
      if InEnqueue(s.threads[t].pc) {
        EnqueueLocal(s, t, a.weak, a.link);
      } else {
        DequeueCarries(s, t, a.weak);
      }
    }
  }

  /** The job a carrying thread took does not change. */
  lemma KeepsTaken(s: State, g: Aux, a: Action, t: Thread)
    requires Enabled(s, a) && t in s.threads && Carries(s.threads[t]) && t in g.taken
    ensures t in AuxAfter(s, g, a).taken && AuxAfter(s, g, a).taken[t] == g.taken[t]
  {
    hide AuxRun;
    if a.Run? {
      RunTaken(s, g, a.t, a.weak);
    }
  }

  lemma CarriesTaken(s: State, g: Aux, t: Thread)
    requires Inv(s, g) && t in s.threads && Carries(s.threads[t])
    ensures t in g.taken
    ensures s.threads[t].pc == DReleaseHead && s.threads[t].outcome.Delivered? ==>
              s.threads[t].outcome.job == g.taken[t]
  {
    hide ChainOk, PlacesOk;
    assert ThreadOk(s, g, t);
  }

  lemma {:induction false} CarriedFrom(states: seq<State>, actions: seq<Action>, dummy: Node, i: nat, t: Thread)
    requires IsRun(states, actions, dummy) && i <= |actions|
    requires t in states[i].threads && Carries(states[i].threads[t])
    ensures t in AuxAt(states, actions, dummy, i).taken
    ensures exists k :: RemovedAt(states, actions, dummy, k, i, t, AuxAt(states, actions, dummy, i).taken[t])
  {
    hide Inv, EffectOf, Contents, After, AuxAfter, Enabled, Carries;
    var g := AuxAt(states, actions, dummy, i);
    RunInv(states, actions, dummy, i);
    CarriesTaken(states[i], g, t);
    if i == 0 {
      NobodyCarries(states[0], dummy, t);
    } else {
      var s0, g0, a := states[i - 1], AuxAt(states, actions, dummy, i - 1), actions[i - 1];
      StartsCarrying(s0, a, t);
      RunInv(states, actions, dummy, i - 1);
      if Carries(s0.threads[t]) {
        CarriedFrom(states, actions, dummy, i - 1, t);
        KeepsTaken(s0, g0, a, t);
        var k :| RemovedAt(states, actions, dummy, k, i - 1, t, g0.taken[t]);
        assert RemovedAt(states, actions, dummy, k, i, t, g.taken[t]);
      } else {
        JustRemoved(s0, g0, a);
        assert RemovedAt(states, actions, dummy, i - 1, i, t, g.taken[t]);
      }
    }
  }

  lemma NobodyCarries(s: State, dummy: Node, t: Thread)
    requires Init(s, dummy) && t in s.threads
    ensures !Carries(s.threads[t])
  {
  }

  lemma JustRemoved(s: State, g: Aux, a: Action)
    requires Inv(s, g) && Enabled(s, a) && EffectOf(s, a).RemoveFirst?
    ensures Contents(s) != [] && a.t in AuxAfter(s, g, a).taken
    ensures AuxAfter(s, g, a).taken[a.t] == Contents(s)[0]
  {
    hide Inv, Contents, AuxAfter;
    ContentsAre(s, g);
    SwingTakes(s, g, a.t);
    SwingRemoves(s, g, a);
  }

  /** Every job a dequeue returns is one that the same call removed from the front of the queue. */
  lemma ReturnedWasRemoved(states: seq<State>, actions: seq<Action>, dummy: Node, i: nat, t: Thread, job: Job)
    requires IsRun(states, actions, dummy) && i < |actions|
    requires Returns(states, actions, i, t, Delivered(job))
    ensures exists k :: RemovedAt(states, actions, dummy, k, i, t, job)
  {
    hide Inv;
    CarriedFrom(states, actions, dummy, i, t);
    RunInv(states, actions, dummy, i);
    CarriesTaken(states[i], AuxAt(states, actions, dummy, i), t);
  }

  lemma ReturnEnds(s: State, a: Action, t: Thread)
    requires Enabled(s, a) && a.Run? && a.t == t && s.threads[t].pc == DReleaseHead
    ensures t in After(s, a).threads && !Carries(After(s, a).threads[t])
  {
    hide Derefs;
  }

  /** Each removal is returned at most once: two returns of it are the same step. */
  lemma ReturnedOnce(states: seq<State>, actions: seq<Action>, dummy: Node, k: nat,
                     i: nat, t: Thread, job: Job, i': nat, t': Thread, job': Job)
    requires IsRun(states, actions, dummy) && i < |actions| && i' < |actions|
    requires Returns(states, actions, i, t, Delivered(job)) && RemovedAt(states, actions, dummy, k, i, t, job)
    requires Returns(states, actions, i', t', Delivered(job')) && RemovedAt(states, actions, dummy, k, i', t', job')
    ensures i == i' && t == t' && job == job'
  {
    hide After, Contents, EffectOf, Carries;
    if i < i' {
      assert Carries(states[i + 1].threads[t]);
      ReturnEnds(states[i], actions[i], t);
    } else if i' < i {
      assert Carries(states[i' + 1].threads[t']);
      ReturnEnds(states[i'], actions[i'], t');
    }
  }

  // ---------------------------------------------------------------- answers of enqueue

  /** The thread has been inside the call of `enqueue` that step `b` started. */
  ghost predicate Enqueuing(states: seq<State>, actions: seq<Action>, b: nat, i: nat, t: Thread, job: Job)
    requires b < i <= |actions| < |states|
  {
    && actions[b].StartEnqueue? && actions[b].t == t && actions[b].job == Some(job)
    && forall m :: b < m <= i ==> t in states[m].threads && InEnqueue(states[m].threads[t].pc)
  }

  /** The jobs that steps of `t` appended between the states `b` and `i`. */
  ghost function AppendedBy(states: seq<State>, actions: seq<Action>, dummy: Node, b: nat, i: nat, t: Thread): seq<Job>
    requires IsRun(states, actions, dummy) && b <= i <= |actions|
    decreases i
  {
    if b == i then []
    else
      var js := AppendedBy(states, actions, dummy, b, i - 1, t);
      var e := EffectOf(states[i - 1], actions[i - 1]);
      if Actor(states[i - 1], actions[i - 1]) == Some(t) && e.Append? then js + [e.job] else js
  }

  /** The call has linked its node. */
  predicate HasLinked(l: Local) {
    l.pc in {ESwing, ECount} || (l.pc == ERelease && l.outcome == Linked)
  }

  /** A call that is about to return has its answer. */
  predicate Answered(l: Local) {
    l.pc == ERelease ==> l.outcome == Linked || l.outcome == Busy
  }

  lemma StartsUnlinked(s: State, a: Action)
    requires Enabled(s, a) && a.StartEnqueue? && a.job.Some?
    ensures var s' := After(s, a);
            && a.t in s'.threads && !HasLinked(s'.threads[a.t]) && Answered(s'.threads[a.t])
            && s'.threads[a.t].job == a.job.value
  {
  }

  lemma EnqueueLinks(s: State, t: Thread, weak: bool, link: Node)
    requires t in s.threads && Derefs(s.threads[t]) <= s.next.Keys && InEnqueue(s.threads[t].pc)
    requires !Claiming(s.threads[t].pc) && t in EnqueueStep(s, t, weak, link).threads
    ensures var l, l' := s.threads[t], EnqueueStep(s, t, weak, link).threads[t];
            var links := l.pc == ELink && s.next[l.tail] == NULL && !weak;
            && l'.job == l.job
            && (l'.pc != Idle ==> (HasLinked(l') <==> HasLinked(l) || links))
            && (links ==> !HasLinked(l)) && (l.pc != ERelease ==> Answered(l'))
  {
    hide Derefs;
  }

  /** Whether a call has linked changes with its own append and with nothing else. */
  lemma LinkedStep(s: State, a: Action, t: Thread)
    requires Enabled(s, a) && t in s.threads && InEnqueue(s.threads[t].pc)
    requires t in After(s, a).threads && InEnqueue(After(s, a).threads[t].pc)
    ensures var l, l' := s.threads[t], After(s, a).threads[t];
            var appends := Actor(s, a) == Some(t) && EffectOf(s, a).Append?;
            && l'.job == l.job && (HasLinked(l') <==> HasLinked(l) || appends) && (appends ==> !HasLinked(l))
            && (appends ==> EffectOf(s, a).job == l.job) && (Answered(l) ==> Answered(l'))
  {
    hide EnqueueStep, DequeueStep, Derefs, HasLinked, Answered;
    if Actor(s, a) != Some(t) {
      OthersStay(s, a, t);
    } else if a.Run? {
      EnqueueLocal(s, t, a.weak, a.link);
      EnqueueLinks(s, t, a.weak, a.link);
      if s.threads[t].pc == ERelease {
        ReleaseReturns(s, t, a.weak, a.link);
      }
    } else if a.Claim? {
      ClaimsUnlinked(s, t, a.record);
    }
  }

  lemma ReleaseReturns(s: State, t: Thread, weak: bool, link: Node)
    requires t in s.threads && Derefs(s.threads[t]) <= s.next.Keys && s.threads[t].pc == ERelease
    requires t in EnqueueStep(s, t, weak, link).threads
    ensures EnqueueStep(s, t, weak, link).threads[t].pc == Idle
  {
    hide Derefs;
  }

  lemma ClaimsUnlinked(s: State, t: Thread, r: nat)
    requires t in s.threads && s.threads[t].pc == EGuard && r <= |s.records|
    ensures var l' := ClaimStep(s, t, r).threads[t];
            !HasLinked(s.threads[t]) && !HasLinked(l') && Answered(l') && l'.job == s.threads[t].job
  {
  }

  /** At any moment of a call it has appended its job once, if it has linked, and nothing else. */
  lemma {:induction false} CallAppends(states: seq<State>, actions: seq<Action>, dummy: Node,
                                       b: nat, i: nat, t: Thread, job: Job)
    requires IsRun(states, actions, dummy) && b < i <= |actions| && Enqueuing(states, actions, b, i, t, job)
    ensures states[i].threads[t].job == job && Answered(states[i].threads[t])
    ensures AppendedBy(states, actions, dummy, b + 1, i, t) == if HasLinked(states[i].threads[t]) then [job] else []
    decreases i
  {
    hide After, EffectOf, HasLinked, Enabled;
    if i == b + 1 {
      StartsUnlinked(states[b], actions[b]);
    } else {
      var k := i - 1;
      CallAppends(states, actions, dummy, b, k, t, job);
      assert states[k + 1] == After(states[k], actions[k]) && t in states[i].threads;
      LinkedStep(states[k], actions[k], t);
    }
  }

  /** An enqueue that answers success appended its job exactly once; one that answers busy appended nothing. */
  lemma AnsweredEnqueue(states: seq<State>, actions: seq<Action>, dummy: Node,
                        b: nat, i: nat, t: Thread, job: Job)
    requires IsRun(states, actions, dummy) && b < i < |actions| && Enqueuing(states, actions, b, i, t, job)
    requires actions[i].Run? && actions[i].t == t && states[i].threads[t].pc == ERelease
    ensures states[i].threads[t].outcome == Linked ==> AppendedBy(states, actions, dummy, b + 1, i, t) == [job]
    ensures states[i].threads[t].outcome == Busy ==> AppendedBy(states, actions, dummy, b + 1, i, t) == []
    ensures states[i].threads[t].outcome == Linked || states[i].threads[t].outcome == Busy
  {
    hide After, EffectOf, Enabled;
    CallAppends(states, actions, dummy, b, i, t, job);
  }

  // ---------------------------------------------------------------- answers of "empty"

  /** The queue was empty after step `k`, and thread `t` has been inside one dequeue since. */
  ghost predicate EmptyAt(states: seq<State>, k: nat, i: nat, t: Thread)
    requires i < |states|
  {
    && k <= i && Contents(states[k]) == []
    && forall m :: k <= m <= i ==> t in states[m].threads && InDequeue(states[m].threads[t].pc)
  }

  lemma SawEmptyStep(s: State, g: Aux, a: Action, t: Thread)
    requires Inv(s, g) && Enabled(s, a) && t in AuxAfter(s, g, a).sawEmpty
    ensures t in g.sawEmpty || (t in s.threads && InDequeue(s.threads[t].pc) && Contents(s) == [])
    ensures a != StartDequeue(t)
  {
    hide Inv, Contents;
    ContentsAre(s, g);
    if a.Run? {
      SawEmptyRun(s, g, a.t, a.weak);
      ChainLengths(s, g);
    }
    hide AuxRun;
  }

  lemma ChainLengths(s: State, g: Aux)
    requires Inv(s, g)
    ensures |g.hist| == |g.jobs|
  {
  }

  lemma SawEmptyRun(s: State, g: Aux, t: Thread, weak: bool)
    requires t in s.threads && Derefs(s.threads[t]) <= s.next.Keys
    ensures AuxRun(s, g, t, weak).sawEmpty == g.sawEmpty
            || (s.threads[t].pc == DLoadNext && g.headPos + 1 == |g.hist|
                && AuxRun(s, g, t, weak).sawEmpty == g.sawEmpty + {t})
  {
    hide AuxLink, AuxSwing, AuxTail, Derefs;
    TailSaw(s, g, s.threads[t].tail, weak);
    LinkSaw(g, t, s.threads[t]);
  }

  lemma TailSaw(s: State, g: Aux, from: Node, weak: bool)
    ensures AuxTail(s, g, from, weak).sawEmpty == g.sawEmpty
  {
  }

  lemma LinkSaw(g: Aux, t: Thread, l: Local)
    ensures AuxLink(g, l).sawEmpty == g.sawEmpty && AuxSwing(g, t, l).sawEmpty == g.sawEmpty
  {
  }

  lemma {:induction false} EmptyWitness(states: seq<State>, actions: seq<Action>, dummy: Node, i: nat, t: Thread)
    requires IsRun(states, actions, dummy) && i <= |actions|
    requires t in AuxAt(states, actions, dummy, i).sawEmpty
    requires t in states[i].threads && InDequeue(states[i].threads[t].pc)
    ensures exists k :: EmptyAt(states, k, i, t)
  {
    hide Inv, Contents, After, AuxAfter, Enabled;
    if i > 0 {
      var s0, g0, a := states[i - 1], AuxAt(states, actions, dummy, i - 1), actions[i - 1];
      RunInv(states, actions, dummy, i - 1);
      SawEmptyStep(s0, g0, a, t);
      EntersDequeue(s0, a, t);
      if t in g0.sawEmpty {
        EmptyWitness(states, actions, dummy, i - 1, t);
        var k :| EmptyAt(states, k, i - 1, t);
        assert EmptyAt(states, k, i, t);
      } else {
        assert EmptyAt(states, i - 1, i, t);
      }
    }
  }

  /** A dequeue that answers "empty" because it found no successor saw a moment of emptiness. */
  lemma EmptyAnswerIsHonest(states: seq<State>, actions: seq<Action>, dummy: Node, i: nat, t: Thread)
    requires IsRun(states, actions, dummy) && i < |actions|
    requires Returns(states, actions, i, t, SawEmpty)
    ensures exists k :: EmptyAt(states, k, i, t)
  {
    hide Inv, After, Enabled, Contents;
    RunInv(states, actions, dummy, i);
    var g := AuxAt(states, actions, dummy, i);
    AnsweredEmpty(states[i], g, t);
    EmptyWitness(states, actions, dummy, i, t);
  }

  lemma AnsweredEmpty(s: State, g: Aux, t: Thread)
    requires Inv(s, g) && t in s.threads
    requires s.threads[t].pc == DReleaseHead && s.threads[t].outcome == SawEmpty
    ensures t in g.sawEmpty
  {
    hide ChainOk, PlacesOk;
    assert ThreadOk(s, g, t);
  }

  // ---------------------------------------------------------------- memory

  /** In no run does a thread touch a node that is in the pool or was never allocated. */
  lemma RunNeverTouchesRecycled(states: seq<State>, actions: seq<Action>, dummy: Node, i: nat, t: Thread)
    requires IsRun(states, actions, dummy) && i <= |actions| && t in states[i].threads
    ensures Derefs(states[i].threads[t]) <= states[i].next.Keys
    ensures Derefs(states[i].threads[t]) !! states[i].free
  {
    hide Inv;
    RunInv(states, actions, dummy, i);
    NoRecycledAccess(states[i], AuxAt(states, actions, dummy, i), t);
  }

  /** A collection recycles only nodes that no validated operation holds. */
  lemma RunReclaimsUnheld(states: seq<State>, actions: seq<Action>, dummy: Node, i: nat, t: Thread)
    requires IsRun(states, actions, dummy) && i < |actions| && t in states[i].threads
    requires actions[i].ScanReclaim?
    ensures !Holds(states[i].threads[t], actions[i].node)
  {
    hide Inv;
    RunInv(states, actions, dummy, i);
    ReclaimSafe(states[i], AuxAt(states, actions, dummy, i), actions[i].node, t);
  }

  /** The shape of the list in every state, and where a node can be. */
  lemma RunShape(states: seq<State>, actions: seq<Action>, dummy: Node, i: nat)
    requires IsRun(states, actions, dummy) && i <= |actions|
    ensures exists ns :: ListFrom(states[i].next, states[i].head, ns)
    ensures forall ns :: ListFrom(states[i].next, states[i].head, ns) ==>
              && (states[i].tail == ns[|ns| - 1] || (|ns| >= 2 && states[i].tail == ns[|ns| - 2]))
              && (forall j :: 0 <= j < |ns| ==> ns[j] !in states[i].retired && ns[j] !in states[i].free)
    ensures states[i].free !! states[i].retired
  {
    hide Inv, After, Enabled, ListFrom;
    var s, g := states[i], AuxAt(states, actions, dummy, i);
    RunInv(states, actions, dummy, i);
    LinkedList(s, g);
    ListedPlaces(s, g);
    forall ns | ListFrom(s.next, s.head, ns)
      ensures ns == g.hist[g.headPos..]
    {
      ListUnique(s.next, s.head, ns, g.hist[g.headPos..]);
    }
  }

  lemma ListedPlaces(s: State, g: Aux)
    requires Inv(s, g)
    ensures g.headPos <= |g.hist| && s.free !! s.retired
    ensures forall j :: g.headPos <= j < |g.hist| ==> g.hist[j] !in s.retired && g.hist[j] !in s.free
  {
    hide NextOk, DataOk, ThreadOk;
  }
}
