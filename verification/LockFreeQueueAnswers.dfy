/** What a call of the lock-free queue answers, against what its own steps did to the queue. */
module LockFreeQueueAnswers {
  import opened LockFreeQueue
  import opened Wrappers
  import opened LockFreeQueueInvariant
  import opened LockFreeQueueUpdates
  import opened LockFreeQueueTheorems
  import opened LockFreeQueueRuns
  import opened LockFreeQueueRetries

  /** The thread has been inside the call of `dequeue` that step `b` started. */
  ghost predicate Dequeuing(states: seq<State>, actions: seq<Action>, b: nat, i: nat, t: Thread)
    requires b < i <= |actions| < |states|
  {
    && actions[b] == StartDequeue(t)
    && forall m :: b < m <= i ==> t in states[m].threads && InDequeue(states[m].threads[t].pc)
  }

  /** The jobs at the front of the queue when steps of `t` between the states `b` and `i` swung `head`. */
  ghost function RemovedBy(states: seq<State>, actions: seq<Action>, dummy: Node, b: nat, i: nat, t: Thread): seq<Job>
    requires IsRun(states, actions, dummy) && b <= i <= |actions|
    decreases i
  {
    if b == i then []
    else
      var js := RemovedBy(states, actions, dummy, b, i - 1, t);
      if Removes(states[i - 1], actions[i - 1], t) && Contents(states[i - 1]) != []
      then js + [Contents(states[i - 1])[0]]
      else js
  }

  predicate Removes(s: State, a: Action, t: Thread)
    requires Enabled(s, a)
  {
    Actor(s, a) == Some(t) && EffectOf(s, a).RemoveFirst?
  }

  /** A dequeue that is about to return has one of its three answers. */
  predicate HasAnswer(l: Local) {
    l.pc in {DReleaseNext, DReleaseHead} ==> l.outcome.SawEmpty? || l.outcome.Exhausted? || l.outcome.Delivered?
  }

  lemma RetryAnswers(l: Local)
    ensures HasAnswer(RetryDequeue(l)) && !Carries(RetryDequeue(l)) && RetryDequeue(l).pc in {DLoadHead, DReleaseNext}
  {
  }

  /** A step of `dequeue` starts to carry a job by swinging `head`, and stops only by returning. */
  lemma DequeueTakes(s: State, t: Thread, weak: bool)
    requires t in s.threads && Derefs(s.threads[t]) <= s.next.Keys && InDequeue(s.threads[t].pc)
    requires !Claiming(s.threads[t].pc) && !Collecting(s.threads[t].pc)
    requires t in DequeueStep(s, t, weak).threads
    ensures TakesBySwing(s, s.threads[t], DequeueStep(s, t, weak).threads[t], weak)
  {
    hide TakesBySwing;
    if s.threads[t].pc in {DTake, DRetire, DCount, DReleaseNext, DReleaseHead} {
      FinishTakes(s, t, weak);
    } else if s.threads[t].pc in {DRecheck, DHelp, DSwing} {
      DecideTakes(s, t, weak);
    } else if s.threads[t].pc in {DLoadNext, DProtectNext, DVerifyNext} {
      NextTakes(s, t, weak);
    } else {
      HeadTakes(s, t, weak);
    }
    hide DequeueStep;
  }

  predicate TakesBySwing(s: State, l: Local, l': Local, weak: bool) {
    var swings := l.pc == DSwing && s.head == l.head && !weak;
    && (l'.pc != Idle ==> (Carries(l') <==> Carries(l) || swings))
    && (swings ==> !Carries(l)) && (HasAnswer(l) ==> HasAnswer(l')) && !InEnqueue(l'.pc)
    && (l'.pc == Idle <==> l.pc == DReleaseHead) && (l'.pc == Idle ==> l'.outcome == l.outcome)
  }

  lemma FinishTakes(s: State, t: Thread, weak: bool)
    requires t in s.threads && Derefs(s.threads[t]) <= s.next.Keys
    requires s.threads[t].pc in {DTake, DRetire, DCount, DReleaseNext, DReleaseHead}
    requires t in DequeueStep(s, t, weak).threads
    ensures TakesBySwing(s, s.threads[t], DequeueStep(s, t, weak).threads[t], weak)
  {
    hide Derefs, Threshold, LoadHead, ProtectHead, ValidateHead, ReadTail,
      LoadHeadNext, ProtectNext, VerifyNext, RecheckHead, HelpDequeue, SwingHead;
  }

  lemma DecideTakes(s: State, t: Thread, weak: bool)
    requires t in s.threads && Derefs(s.threads[t]) <= s.next.Keys
    requires s.threads[t].pc in {DRecheck, DHelp, DSwing}
    requires t in DequeueStep(s, t, weak).threads
    ensures TakesBySwing(s, s.threads[t], DequeueStep(s, t, weak).threads[t], weak)
  {
    RetryAnswers(s.threads[t]);
    hide RetryDequeue, Derefs, Threshold, LoadHead, ProtectHead, ValidateHead, ReadTail,
      LoadHeadNext, ProtectNext, VerifyNext, Take, Retire, CountDown, ReleaseNext, ReleaseHead;
  }

  lemma NextTakes(s: State, t: Thread, weak: bool)
    requires t in s.threads && Derefs(s.threads[t]) <= s.next.Keys
    requires s.threads[t].pc in {DLoadNext, DProtectNext, DVerifyNext} && t in DequeueStep(s, t, weak).threads
    ensures TakesBySwing(s, s.threads[t], DequeueStep(s, t, weak).threads[t], weak)
  {
    RetryAnswers(s.threads[t]);
    hide RetryDequeue, LoadHead, ProtectHead, ValidateHead, ReadTail,
      RecheckHead, HelpDequeue, SwingHead, Take, Retire, CountDown, ReleaseNext, ReleaseHead;
  }

  lemma HeadTakes(s: State, t: Thread, weak: bool)
    requires t in s.threads && Derefs(s.threads[t]) <= s.next.Keys
    requires s.threads[t].pc in {DLoadHead, DProtectHead, DValidate, DLoadTail} && t in DequeueStep(s, t, weak).threads
    ensures TakesBySwing(s, s.threads[t], DequeueStep(s, t, weak).threads[t], weak)
  {
    RetryAnswers(s.threads[t]);
    hide RetryDequeue, Derefs, LoadHeadNext, ProtectNext, VerifyNext,
      RecheckHead, HelpDequeue, SwingHead, Take, Retire, CountDown, ReleaseNext, ReleaseHead;
  }

  /** Whether a call carries a job changes with its own removal and with nothing else. */
  lemma CarryStep(s: State, a: Action, t: Thread)
    requires Enabled(s, a) && t in s.threads && InDequeue(s.threads[t].pc)
    requires t in After(s, a).threads && InDequeue(After(s, a).threads[t].pc)
    ensures var l, l' := s.threads[t], After(s, a).threads[t];
            && (Carries(l') <==> Carries(l) || Removes(s, a, t)) && (Removes(s, a, t) ==> !Carries(l))
            && (HasAnswer(l) ==> HasAnswer(l'))
  {
    hide EnqueueStep, DequeueStep, Derefs;
    if Actor(s, a) != Some(t) {
      OthersStay(s, a, t);
    } else if a.Run? {
      DequeueLocal(s, t, a.weak);
      DequeueTakes(s, t, a.weak);
    }
  }

  lemma StartsEmptyHanded(s: State, a: Action)
    requires Enabled(s, a) && a.StartDequeue?
    ensures a.t in After(s, a).threads && InDequeue(After(s, a).threads[a.t].pc)
    ensures !Carries(After(s, a).threads[a.t]) && HasAnswer(After(s, a).threads[a.t])
  {
  }

  /** At any moment of a call it has removed the job it carries, if it carries one, and nothing else. */
  lemma {:induction false} CallRemoves(states: seq<State>, actions: seq<Action>, dummy: Node, b: nat, i: nat, t: Thread)
    requires IsRun(states, actions, dummy) && b < i <= |actions| && Dequeuing(states, actions, b, i, t)
    ensures HasAnswer(states[i].threads[t])
    ensures !Carries(states[i].threads[t]) ==> RemovedBy(states, actions, dummy, b + 1, i, t) == []
    ensures Carries(states[i].threads[t]) ==>
              && t in AuxAt(states, actions, dummy, i).taken
              && RemovedBy(states, actions, dummy, b + 1, i, t) == [AuxAt(states, actions, dummy, i).taken[t]]
    decreases i
  {
    hide After, EffectOf, Enabled, Carries, HasAnswer, Contents, Inv, AuxAfter;
    if i == b + 1 {
      StartsEmptyHanded(states[b], actions[b]);
    } else {
      var k := i - 1;
      var s, g, a := states[k], AuxAt(states, actions, dummy, k), actions[k];
      CallRemoves(states, actions, dummy, b, k, t);
      assert states[k + 1] == After(s, a) && t in states[i].threads;
      CarryStep(s, a, t);
      RunInv(states, actions, dummy, k);
      if Carries(s.threads[t]) {
        KeepsTaken(s, g, a, t);
      } else if Removes(s, a, t) {
        RemoverRuns(s, a);
        JustRemoved(s, g, a);
      }
    }
  }

  lemma RemoverRuns(s: State, a: Action)
    requires Enabled(s, a) && EffectOf(s, a).RemoveFirst?
    ensures a.Run? && Actor(s, a) == Some(a.t)
  {
  }

  /**
    A dequeue answers with the one job its own swing of `head` took from the front of the queue,
    or it removed nothing and answers that it saw the queue empty or ran out of attempts.
   */
  lemma AnsweredDequeue(states: seq<State>, actions: seq<Action>, dummy: Node, b: nat, i: nat, t: Thread,
                        answer: Outcome)
    requires IsRun(states, actions, dummy) && b < i < |actions| && Dequeuing(states, actions, b, i, t)
    requires Returns(states, actions, i, t, answer)
    ensures answer == SawEmpty || answer == Exhausted || answer.Delivered?
    ensures RemovedBy(states, actions, dummy, b + 1, i, t) == if answer.Delivered? then [answer.job] else []
  {
    hide After, EffectOf, Enabled, Inv;
    CallRemoves(states, actions, dummy, b, i, t);
    if Carries(states[i].threads[t]) {
      RunInv(states, actions, dummy, i);
      CarriesTaken(states[i], AuxAt(states, actions, dummy, i), t);
    }
  }

  // ---------------------------------------------------------------- every call has a beginning

  /** Only starting an enqueue with a job brings a thread into one. */
  lemma EntersEnqueue(s: State, a: Action, t: Thread)
    requires Enabled(s, a) && t in After(s, a).threads && InEnqueue(After(s, a).threads[t].pc)
    ensures t in s.threads
    ensures InEnqueue(s.threads[t].pc) || (a.StartEnqueue? && a.t == t && a.job.Some?)
  {
    hide EnqueueStep, DequeueStep, Derefs;
    if Actor(s, a) != Some(t) {
      OthersStay(s, a, t);
    } else if a.Run? && !InEnqueue(s.threads[t].pc) {
      DequeueLocal(s, t, a.weak);
      DequeueTakes(s, t, a.weak);
    }
  }

  /** Every thread inside `dequeue` is inside a call that some step of the run started. */
  lemma {:induction false} DequeueBegan(states: seq<State>, actions: seq<Action>, dummy: Node, i: nat, t: Thread)
    requires IsRun(states, actions, dummy) && i <= |actions|
    requires t in states[i].threads && InDequeue(states[i].threads[t].pc)
    ensures exists b :: 0 <= b < i && Dequeuing(states, actions, b, i, t)
  {
    hide After, Enabled;
    if i > 0 {
      EntersDequeue(states[i - 1], actions[i - 1], t);
      if actions[i - 1] == StartDequeue(t) {
        assert Dequeuing(states, actions, i - 1, i, t);
      } else {
        DequeueBegan(states, actions, dummy, i - 1, t);
        var b :| 0 <= b < i - 1 && Dequeuing(states, actions, b, i - 1, t);
        assert Dequeuing(states, actions, b, i, t);
      }
    }
  }

  /** Every thread inside `enqueue` is inside a call that some step of the run started with a job. */
  lemma {:induction false} EnqueueBegan(states: seq<State>, actions: seq<Action>, dummy: Node, i: nat, t: Thread)
    requires IsRun(states, actions, dummy) && i <= |actions|
    requires t in states[i].threads && InEnqueue(states[i].threads[t].pc)
    ensures exists b, job :: 0 <= b < i && Enqueuing(states, actions, b, i, t, job)
  {
    hide After, Enabled;
    if i > 0 {
      EntersEnqueue(states[i - 1], actions[i - 1], t);
      if InEnqueue(states[i - 1].threads[t].pc) {
        EnqueueBegan(states, actions, dummy, i - 1, t);
        var b, job :| 0 <= b < i - 1 && Enqueuing(states, actions, b, i - 1, t, job);
        assert Enqueuing(states, actions, b, i, t, job);
      } else {
        assert Enqueuing(states, actions, i - 1, i, t, actions[i - 1].job.value);
      }
    }
  }

  /** Starting a call puts the thread inside it. */
  lemma CallStarts(states: seq<State>, actions: seq<Action>, dummy: Node, b: nat, t: Thread)
    requires IsRun(states, actions, dummy) && b < |actions|
    ensures actions[b] == StartDequeue(t) ==> Dequeuing(states, actions, b, b + 1, t)
    ensures forall job, n :: actions[b] == StartEnqueue(t, Some(job), n) ==>
              Enqueuing(states, actions, b, b + 1, t, job)
  {
    hide EnqueueStep, DequeueStep, ClaimStep, Derefs;
  }

  lemma EnqueueEnds(s: State, t: Thread, weak: bool, link: Node)
    requires t in s.threads && Derefs(s.threads[t]) <= s.next.Keys && InEnqueue(s.threads[t].pc)
    requires !Claiming(s.threads[t].pc) && t in EnqueueStep(s, t, weak, link).threads
    ensures var l, l' := s.threads[t], EnqueueStep(s, t, weak, link).threads[t];
            (l'.pc == Idle <==> l.pc == ERelease) && (l'.pc == Idle ==> l'.outcome == l.outcome)
  {
    hide Derefs;
  }

  /** A call ends with the step that gives back its last hazard record, and leaves its answer behind. */
  lemma CallEnds(states: seq<State>, actions: seq<Action>, dummy: Node, i: nat, t: Thread)
    requires IsRun(states, actions, dummy) && i < |actions| && t in states[i].threads && states[i].threads[t].pc != Idle
    ensures t in states[i + 1].threads
    ensures states[i + 1].threads[t].pc == Idle <==>
              actions[i].Run? && actions[i].t == t && states[i].threads[t].pc in {ERelease, DReleaseHead}
    ensures states[i + 1].threads[t].pc == Idle ==> states[i + 1].threads[t].outcome == states[i].threads[t].outcome
  {
    hide After, Enabled;
    var s, a := states[i], actions[i];
    assert Enabled(s, a);
    if Actor(s, a) != Some(t) {
      OthersStay(s, a, t);
    } else if a.Run? {
      RunEnds(s, a, t);
    } else {
      ScanGoesOn(s, a, t);
    }
  }

  lemma RunEnds(s: State, a: Action, t: Thread)
    requires Enabled(s, a) && a.Run? && a.t == t
    ensures t in After(s, a).threads
    ensures After(s, a).threads[t].pc == Idle <==> s.threads[t].pc in {ERelease, DReleaseHead}
    ensures After(s, a).threads[t].pc == Idle ==> After(s, a).threads[t].outcome == s.threads[t].outcome
  {
    hide EnqueueStep, DequeueStep, Derefs;
    if InEnqueue(s.threads[t].pc) {
      EnqueueLocal(s, t, a.weak, a.link);
      EnqueueEnds(s, t, a.weak, a.link);
    } else {
      DequeueLocal(s, t, a.weak);
      DequeueTakes(s, t, a.weak);
    }
  }

  lemma ScanGoesOn(s: State, a: Action, t: Thread)
    requires Enabled(s, a) && !a.Run? && Actor(s, a) == Some(t) && t in s.threads && s.threads[t].pc != Idle
    ensures t in After(s, a).threads && After(s, a).threads[t].pc != Idle
  {
    hide EnqueueStep, DequeueStep, Derefs;
  }

  /** A null job is refused on the spot: nothing but the caller's answer changes. */
  lemma NullJobRefused(s: State, t: Thread, n: Node)
    requires Enabled(s, StartEnqueue(t, None, n))
    ensures var s' := After(s, StartEnqueue(t, None, n));
            && t in s'.threads && s'.threads[t].pc == Idle && s'.threads[t].outcome == InvalidArgument
            && s' == s.(threads := s.threads[t := s'.threads[t]])
  {
  }

  // ---------------------------------------------------------------- calls nobody disturbs

  /** No other thread's compare-and-swap succeeds between the states `b` and `i`. */
  ghost predicate Undisturbed(states: seq<State>, actions: seq<Action>, b: nat, i: nat, t: Thread)
    requires b <= i <= |actions| < |states|
  {
    forall k :: b <= k < i && Advances(states[k], actions[k]) ==> actions[k].t == t
  }

  /** Appends and removals are successes, and they alone move the ends of the history. */
  lemma EffectMoves(s: State, g: Aux, a: Action)
    requires Inv(s, g) && Enabled(s, a)
    ensures !EffectOf(s, a).Keep? ==> a.Run? && Advances(s, a)
    ensures |AuxAfter(s, g, a).hist| == |g.hist| + if EffectOf(s, a).Append? then 1 else 0
    ensures AuxAfter(s, g, a).headPos == g.headPos + if EffectOf(s, a).RemoveFirst? then 1 else 0
  {
    hide Inv, AuxAfter, After;
    match EffectOf(s, a)
    case Append(job) => LinkMoves(s, g, a);
    case RemoveFirst =>
      SwingHeadKeeps(s, g, a.t);
      SwingRemoves(s, g, a);
    case Keep =>
      StepKeeps(s, g, a);
      ChainLengths(s, g);
      ChainLengths(After(s, a), AuxAfter(s, g, a));
      QueueStays(s, g, a);
  }

  lemma LinkMoves(s: State, g: Aux, a: Action)
    requires Enabled(s, a) && EffectOf(s, a).Append?
    ensures |AuxAfter(s, g, a).hist| == |g.hist| + 1 && AuxAfter(s, g, a).headPos == g.headPos
  {
  }

  /** In an undisturbed stretch the queue and the ends of its history change by what `t` did. */
  lemma {:induction false} OwnChanges(states: seq<State>, actions: seq<Action>, dummy: Node, b: nat, i: nat, t: Thread)
    requires IsRun(states, actions, dummy) && b <= i <= |actions| && Undisturbed(states, actions, b, i, t)
    ensures Contents(states[b]) + AppendedBy(states, actions, dummy, b, i, t)
            == RemovedBy(states, actions, dummy, b, i, t) + Contents(states[i])
    ensures Grown(AuxAt(states, actions, dummy, b), AuxAt(states, actions, dummy, i),
                  |AppendedBy(states, actions, dummy, b, i, t)|, |RemovedBy(states, actions, dummy, b, i, t)|)
    decreases i
  {
    hide After, Enabled, Inv, AuxAfter, EffectOf, Contents, Advances;
    if b < i {
      var k := i - 1;
      var g := AuxAt(states, actions, dummy, k);
      OwnChanges(states, actions, dummy, b, k, t);
      RunInv(states, actions, dummy, k);
      assert Enabled(states[k], actions[k]);
      EffectMoves(states[k], g, actions[k]);
      StepRefines(states[k], g, actions[k]);
      Rebalance(EffectOf(states[k], actions[k]), Contents(states[b]), AppendedBy(states, actions, dummy, b, k, t),
                RemovedBy(states, actions, dummy, b, k, t), Contents(states[k]), Contents(states[i]));
    }
  }

  lemma Rebalance(e: Effect, first: seq<Job>, appended: seq<Job>, removed: seq<Job>, q: seq<Job>, q': seq<Job>)
    requires first + appended == removed + q && FifoStep(e, q, q')
    ensures e.Keep? ==> first + appended == removed + q'
    ensures e.Append? ==> first + (appended + [e.job]) == removed + q'
    ensures e.RemoveFirst? ==> first + appended == (removed + [q[0]]) + q'
  {
    if e.Append? {
      assert first + (appended + [e.job]) == (first + appended) + [e.job];
    } else if e.RemoveFirst? {
      assert q == [q[0]] + q';
    }
  }

  predicate Grown(g: Aux, g': Aux, appended: nat, removed: nat) {
    |g'.hist| == |g.hist| + appended && g'.headPos == g.headPos + removed
  }

  /** The only successes of a lone call are its own link or swing and at most two moves of `tail`. */
  lemma FewSuccesses(states: seq<State>, actions: seq<Action>, dummy: Node, b: nat, i: nat, t: Thread)
    requires IsRun(states, actions, dummy) && b <= i <= |actions| && Undisturbed(states, actions, b, i, t)
    ensures Successes(states, actions, b, i)
            <= 2 * |AppendedBy(states, actions, dummy, b, i, t)| + |RemovedBy(states, actions, dummy, b, i, t)| + 1
  {
    hide After, Enabled, Inv, Contents, Advances;
    var g, g' := AuxAt(states, actions, dummy, b), AuxAt(states, actions, dummy, i);
    OwnChanges(states, actions, dummy, b, i, t);
    TicksCount(states, actions, dummy, b, i);
    RunInv(states, actions, dummy, b);
    RunInv(states, actions, dummy, i);
    TailNear(states[b], g);
    TailNear(states[i], g');
  }

  lemma TailNear(s: State, g: Aux)
    requires Inv(s, g)
    ensures g.tailPos < |g.hist| <= g.tailPos + 2
  {
  }

  lemma {:induction false} EnqueuersRemoveNothing(states: seq<State>, actions: seq<Action>, dummy: Node,
                                                  b: nat, i: nat, t: Thread)
    requires IsRun(states, actions, dummy) && b <= i <= |actions|
    requires forall m :: b <= m < i ==> t in states[m].threads && InEnqueue(states[m].threads[t].pc)
    ensures RemovedBy(states, actions, dummy, b, i, t) == []
    decreases i
  {
    hide After, Contents, Enabled;
    if b < i {
      EnqueuersRemoveNothing(states, actions, dummy, b, i - 1, t);
      assert InEnqueue(states[i - 1].threads[t].pc);
    }
  }

  lemma {:induction false} DequeuersAppendNothing(states: seq<State>, actions: seq<Action>, dummy: Node,
                                                  b: nat, i: nat, t: Thread)
    requires IsRun(states, actions, dummy) && b <= i <= |actions|
    requires forall m :: b <= m < i ==> t in states[m].threads && InDequeue(states[m].threads[t].pc)
    ensures AppendedBy(states, actions, dummy, b, i, t) == []
    decreases i
  {
    hide After, Enabled;
    if b < i {
      DequeuersAppendNothing(states, actions, dummy, b, i - 1, t);
      assert InDequeue(states[i - 1].threads[t].pc);
    }
  }

  /** Starting a call and returning from one leave the queue alone. */
  lemma EdgesKeep(states: seq<State>, actions: seq<Action>, dummy: Node, k: nat)
    requires IsRun(states, actions, dummy) && k < |actions|
    requires actions[k].Run? ==>
               actions[k].t in states[k].threads && states[k].threads[actions[k].t].pc in {ERelease, DReleaseHead}
    ensures Contents(states[k + 1]) == Contents(states[k])
  {
    hide Contents, After;
    RunIsFifo(states, actions, dummy);
  }

  /** An enqueue nobody disturbs succeeds, and the queue is then what it was with the job at its end. */
  lemma LoneEnqueue(states: seq<State>, actions: seq<Action>, dummy: Node, b: nat, i: nat, t: Thread, job: Job)
    requires IsRun(states, actions, dummy) && b < i < |actions| && Enqueuing(states, actions, b, i, t, job)
    requires actions[i].Run? && actions[i].t == t && states[i].threads[t].pc == ERelease
    requires Undisturbed(states, actions, b + 1, i, t) && Failures(states, actions, t, b + 1, i) + 3 < MAX_RETRIES
    ensures states[i].threads[t].outcome == Linked
    ensures Contents(states[i + 1]) == Contents(states[b]) + [job]
  {
    hide After, Enabled, EffectOf, Contents, Advances;
    AnsweredEnqueue(states, actions, dummy, b, i, t, job);
    EnqueuersRemoveNothing(states, actions, dummy, b + 1, i, t);
    OwnChanges(states, actions, dummy, b + 1, i, t);
    FewSuccesses(states, actions, dummy, b + 1, i, t);
    GivingUpHasCauses(states, actions, dummy, b, i, t);
    EdgesKeep(states, actions, dummy, b);
    EdgesKeep(states, actions, dummy, i);
  }

  /** A dequeue nobody disturbs delivers the first job, or answers that the queue is empty when it is. */
  lemma LoneDequeue(states: seq<State>, actions: seq<Action>, dummy: Node, b: nat, i: nat, t: Thread, answer: Outcome)
    requires IsRun(states, actions, dummy) && b < i < |actions| && Dequeuing(states, actions, b, i, t)
    requires Returns(states, actions, i, t, answer)
    requires Undisturbed(states, actions, b + 1, i, t) && Failures(states, actions, t, b + 1, i) + 2 < MAX_OUTER_RETRIES
    ensures Contents(states[b]) == [] ==> answer == SawEmpty && Contents(states[i + 1]) == []
    ensures Contents(states[b]) != [] ==>
              answer == Delivered(Contents(states[b])[0]) && Contents(states[i + 1]) == Contents(states[b])[1..]
  {
    hide After, Enabled, EffectOf, Contents, Advances;
    AnsweredDequeue(states, actions, dummy, b, i, t, answer);
    DequeuersAppendNothing(states, actions, dummy, b + 1, i, t);
    OwnChanges(states, actions, dummy, b + 1, i, t);
    EdgesKeep(states, actions, dummy, b);
    EdgesKeep(states, actions, dummy, i);
    if answer == SawEmpty {
      LoneEmpty(states, actions, dummy, b, i, t);
    } else if answer == Exhausted {
      FewSuccesses(states, actions, dummy, b + 1, i, t);
      GivingUpHasCauses(states, actions, dummy, b, i, t);
    } else {
      assert Contents(states[b]) == [answer.job] + Contents(states[i + 1]);
    }
  }

  /** A lone dequeue that saw the queue empty found it so when it began. */
  lemma LoneEmpty(states: seq<State>, actions: seq<Action>, dummy: Node, b: nat, i: nat, t: Thread)
    requires IsRun(states, actions, dummy) && b < i < |actions| && Dequeuing(states, actions, b, i, t)
    requires Returns(states, actions, i, t, SawEmpty) && Undisturbed(states, actions, b + 1, i, t)
    ensures Contents(states[b + 1]) == []
  {
    hide After, Enabled, EffectOf, Contents, Advances;
    EmptyAnswerIsHonest(states, actions, dummy, i, t);
    var k :| EmptyAt(states, k, i, t);
    IdleBefore(states[b], actions[b]);
    assert b < k;
    AnsweredDequeue(states, actions, dummy, b, i, t, SawEmpty);
    hide Returns, EmptyAt;
    RemovedGrows(states, actions, dummy, b + 1, k, i, t);
    DequeuersAppendNothing(states, actions, dummy, b + 1, k, t);
    OwnChanges(states, actions, dummy, b + 1, k, t);
  }

  lemma IdleBefore(s: State, a: Action)
    requires Enabled(s, a) && a.StartDequeue?
    ensures a.t in s.threads && s.threads[a.t].pc == Idle
  {
  }

  lemma {:induction false} RemovedGrows(states: seq<State>, actions: seq<Action>, dummy: Node,
                                        b: nat, k: nat, i: nat, t: Thread)
    requires IsRun(states, actions, dummy) && b <= k <= i <= |actions|
    ensures |RemovedBy(states, actions, dummy, b, k, t)| <= |RemovedBy(states, actions, dummy, b, i, t)|
    decreases i
  {
    hide After, Enabled, EffectOf, Contents;
    if k < i {
      RemovedGrows(states, actions, dummy, b, k, i - 1, t);
    }
  }
}
