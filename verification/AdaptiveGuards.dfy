/**
  Accuracy guards of a manual-mode adaptive queue: sessions that take, release and switch one
  call after the other.  `AdaptiveRaces` splits the calls into their accesses.
 */
module AdaptiveGuards {
  import opened AdaptiveQueue

  type GuardId = nat

  /** The mode and, for every guard held, the mode it found. */
  datatype Guards = Guards(mode: Mode, held: map<GuardId, Mode>)

  datatype GuardEvent = Acquire(id: GuardId) | Release(id: GuardId) | Switch(target: Mode)

  predicate EventOk(g: Guards, e: GuardEvent) {
    match e
    case Acquire(id) => id !in g.held
    case Release(id) => id in g.held
    case Switch(m) => true
  }

  function AfterEvent(g: Guards, e: GuardEvent): Guards
    requires EventOk(g, e)
  {
    match e
    case Acquire(id) => Guards(AcquiredMode(|g.held|, g.mode), g.held[id := g.mode])
    case Release(id) =>
      Guards(if |g.held| == 1 then ReleasedMode(Manual, g.mode, g.held[id], 0) else g.mode, g.held - {id})
    case Switch(m) => g.(mode := m)
  }

  ghost predicate IsReplay(gs: seq<Guards>, es: seq<GuardEvent>) {
    && |gs| == |es| + 1
    && forall i :: 0 <= i < |es| ==> EventOk(gs[i], es[i]) && gs[i + 1] == AfterEvent(gs[i], es[i])
  }

  /** From the first guard taken to the moment none is held again, with switches in between. */
  ghost predicate IsSession(gs: seq<Guards>, es: seq<GuardEvent>) {
    && IsReplay(gs, es) && |es| > 0 && es[0].Acquire? && gs[0].held == map[] && gs[|es|].held == map[]
    && forall i :: 0 < i < |es| ==> gs[i].held != map[]
  }

  // ---------------------------------------------------------------- the queue replays the events

  /** The events made on the queue itself lead to the modes computed here, and move no job. */
  method Replay(q: AdaptiveQueue, es: seq<GuardEvent>, ghost gs: seq<Guards>)
    requires q.Valid() && q.policy == Manual && !q.stopped && q.guardCount == 0
    requires IsReplay(gs, es) && gs[0] == Guards(q.mode, map[])
    modifies q, q.mutexQueue
    ensures q.Valid() && q.mode == gs[|es|].mode && q.guardCount == |gs[|es|].held|
    ensures q.Contents() == old(q.Contents())
  {
    var held: map<GuardId, Mode> := map[];
    for i := 0 to |es|
      invariant q.Valid() && !q.stopped && q.Contents() == old(q.Contents())
      invariant gs[i] == Guards(q.mode, held) && q.guardCount == |held|
    {
      assert EventOk(gs[i], es[i]) && gs[i + 1] == AfterEvent(gs[i], es[i]);
      match es[i] {
        case Acquire(id) =>
          var previous := q.AcquireGuard();
          held := held[id := previous];
        case Release(id) =>
          OneLess(held, id);
          ManualIgnoresCount(q.mode, held[id], q.enqueueCount + q.dequeueCount);
          q.ReleaseGuard(held[id]);
          held := held - {id};
        case Switch(m) =>
          var ok := q.SwitchMode(m);
      }
    }
  }

  lemma OneLess(held: map<GuardId, Mode>, id: GuardId)
    requires id in held
    ensures |held - {id}| == |held| - 1
    ensures |held| == 1 <==> held - {id} == map[]
  {
    assert |held.Keys - {id}| == |held| - 1;
    assert (held - {id}).Keys == held.Keys - {id};
  }

  lemma ManualIgnoresCount(current: Mode, previous: Mode, operations: nat)
    ensures ReleasedMode(Manual, current, previous, operations) == ReleasedMode(Manual, current, previous, 0)
  {
  }

  // ---------------------------------------------------------------- what a session does to the mode

  /** The target of the last switch among the first `i` events, or the mutex mode if there was none. */
  function LastSwitch(es: seq<GuardEvent>, i: nat): Mode
    requires 0 < i <= |es|
  {
    if i == 1 then MutexMode else if es[i - 1].Switch? then es[i - 1].target else LastSwitch(es, i - 1)
  }

  /** The mode guard `id` found when it was last taken among the first `i` events; `start` is the mode before all. */
  function Remembered(start: Mode, es: seq<GuardEvent>, i: nat, id: GuardId): Mode
    requires i <= |es|
  {
    if i == 0 then start
    else if es[i - 1] == Acquire(id) then (if i == 1 then start else LastSwitch(es, i - 1))
    else Remembered(start, es, i - 1, id)
  }

  /** Inside a session the mode is what the last switch asked for, else the mutex mode. */
  lemma {:induction false} ModeInSession(gs: seq<Guards>, es: seq<GuardEvent>, i: nat)
    requires IsSession(gs, es) && 0 < i < |es|
    ensures gs[i].mode == LastSwitch(es, i)
  {
    assert EventOk(gs[i - 1], es[i - 1]) && gs[i] == AfterEvent(gs[i - 1], es[i - 1]);
    if i == 1 {
      assert |gs[0].held| == 0;
    } else {
      ModeInSession(gs, es, i - 1);
      if es[i - 1].Release? {
        OneLess(gs[i - 1].held, es[i - 1].id);
      }
    }
  }

  lemma {:induction false} HeldInSession(gs: seq<Guards>, es: seq<GuardEvent>, i: nat, id: GuardId)
    requires IsSession(gs, es) && i < |es| && id in gs[i].held
    ensures gs[i].held[id] == Remembered(gs[0].mode, es, i, id)
  {
    if i > 0 {
      assert EventOk(gs[i - 1], es[i - 1]) && gs[i] == AfterEvent(gs[i - 1], es[i - 1]);
      if es[i - 1] == Acquire(id) {
        if i > 1 {
          ModeInSession(gs, es, i - 1);
        }
      } else {
        HeldInSession(gs, es, i - 1, id);
      }
    }
  }

  /** A held guard means the mutex mode exactly when nobody switches to the lock-free mode meanwhile. */
  lemma GuardedIff(gs: seq<Guards>, es: seq<GuardEvent>)
    requires IsSession(gs, es)
    ensures (forall i :: 0 < i < |es| ==> gs[i].mode == MutexMode)
            <==> (forall i :: 0 < i < |es| ==> es[i] != Switch(LockFreeMode))
  {
    if forall i :: 0 < i < |es| ==> es[i] != Switch(LockFreeMode) {
      forall i | 0 < i < |es|
        ensures gs[i].mode == MutexMode
      {
        ModeInSession(gs, es, i);
        NoSwitchYet(es, i);
      }
    } else {
      var i :| 0 < i < |es| && es[i] == Switch(LockFreeMode);
      assert EventOk(gs[i], es[i]) && gs[i + 1] == AfterEvent(gs[i], es[i]);
      assert gs[i + 1].held == gs[i].held && i + 1 < |es|;
      assert gs[i + 1].mode == LockFreeMode;
    }
  }

  lemma {:induction false} NoSwitchYet(es: seq<GuardEvent>, i: nat)
    requires 0 < i <= |es| && forall k :: 0 < k < |es| ==> es[k] != Switch(LockFreeMode)
    ensures LastSwitch(es, i) == MutexMode
  {
    if i > 1 {
      NoSwitchYet(es, i - 1);
    }
  }

  /** A session ends with a release. */
  lemma SessionEnds(gs: seq<Guards>, es: seq<GuardEvent>)
    requires IsSession(gs, es)
    ensures |es| > 1 && es[|es| - 1].Release? && es[|es| - 1].id in gs[|es| - 1].held && |gs[|es| - 1].held| == 1
  {
    var n := |es| - 1;
    assert EventOk(gs[n], es[n]) && gs[n + 1] == AfterEvent(gs[n], es[n]);
    assert EventOk(gs[0], es[0]);
    if es[n].Release? {
      OneLess(gs[n].held, es[n].id);
    } else {
      StillHeld(gs[n], es[n]);
    }
  }

  lemma StillHeld(g: Guards, e: GuardEvent)
    requires EventOk(g, e) && !e.Release? && (g.held != map[] || e.Acquire?)
    ensures AfterEvent(g, e).held != map[]
  {
    if e.Acquire? {
      assert e.id in AfterEvent(g, e).held;
    }
  }

  /**
    The mode a session leaves behind: the lock-free mode if the guard released last had found
    that, else what the last switch asked for.  So it is restored exactly under a condition on
    the events and the mode before them.
   */
  lemma RestoredIff(gs: seq<Guards>, es: seq<GuardEvent>)
    requires IsSession(gs, es)
    ensures es[|es| - 1].Release?
    ensures var n, start := |es| - 1, gs[0].mode;
            var found, switched := Remembered(start, es, n, es[n].id), LastSwitch(es, n);
            && gs[|es|].mode == (if found == LockFreeMode then LockFreeMode else switched)
            && (gs[|es|].mode == start
                <==> if start == LockFreeMode then found == LockFreeMode || switched == LockFreeMode
                     else found == MutexMode && switched == MutexMode)
  {
    var n := |es| - 1;
    SessionEnds(gs, es);
    ModeInSession(gs, es, n);
    HeldInSession(gs, es, n, es[n].id);
    assert EventOk(gs[n], es[n]) && gs[n + 1] == AfterEvent(gs[n], es[n]);
  }

  /** A guard is taken at most once in a session. */
  ghost predicate TakenOnce(es: seq<GuardEvent>) {
    forall i, j :: 0 <= i < j < |es| && es[i].Acquire? && es[j].Acquire? ==> es[i].id != es[j].id
  }

  lemma {:induction false} FoundWithoutSwitch(start: Mode, es: seq<GuardEvent>, i: nat, id: GuardId)
    requires 0 < i <= |es| && TakenOnce(es) && es[0].Acquire?
    requires (forall k :: 0 < k < |es| ==> !es[k].Switch?) && exists k :: 0 <= k < i && es[k] == Acquire(id)
    ensures Remembered(start, es, i, id) == if id == es[0].id then start else MutexMode
  {
    if es[i - 1] == Acquire(id) {
      if i > 1 {
        NoSwitchYet(es, i - 1);
      }
    } else {
      FoundWithoutSwitch(start, es, i - 1, id);
    }
  }

  lemma {:induction false} HeldWasTaken(gs: seq<Guards>, es: seq<GuardEvent>, i: nat, id: GuardId)
    requires IsSession(gs, es) && i < |es| && id in gs[i].held
    ensures exists k :: 0 <= k < i && es[k] == Acquire(id)
  {
    assert i > 0;
    assert EventOk(gs[i - 1], es[i - 1]) && gs[i] == AfterEvent(gs[i - 1], es[i - 1]);
    if es[i - 1] != Acquire(id) {
      HeldWasTaken(gs, es, i - 1, id);
    }
  }

  /** Without switches: restored exactly when it was the mutex mode or the first guard is the last released. */
  lemma RestoredWithoutSwitchIff(gs: seq<Guards>, es: seq<GuardEvent>)
    requires IsSession(gs, es) && TakenOnce(es) && forall k :: 0 < k < |es| ==> !es[k].Switch?
    ensures es[|es| - 1].Release?
    ensures gs[|es|].mode == gs[0].mode <==> gs[0].mode == MutexMode || es[|es| - 1].id == es[0].id
  {
    var n := |es| - 1;
    RestoredIff(gs, es);
    SessionEnds(gs, es);
    HeldWasTaken(gs, es, n, es[n].id);
    FoundWithoutSwitch(gs[0].mode, es, n, es[n].id);
    NoSwitchYet(es, n);
  }

  /** A switch under a guard outlives it, although the guard found the mutex mode. */
  lemma SwitchOutlivesGuard() returns (gs: seq<Guards>, es: seq<GuardEvent>)
    ensures IsSession(gs, es) && gs[0].mode == MutexMode && gs[|es|].mode == LockFreeMode
  {
    es := [Acquire(1), Switch(LockFreeMode), Release(1)];
    var g0 := Guards(MutexMode, map[]);
    var g1 := AfterEvent(g0, es[0]);
    var g2 := AfterEvent(g1, es[1]);
    assert 1 in g1.held.Keys && 1 in g2.held.Keys;
    OneLess(g2.held, 1);
    var g3 := AfterEvent(g2, es[2]);
    assert g3.held == map[];
    gs := [g0, g1, g2, g3];
  }

  /** Two guards released in the order they were taken leave a lock-free queue in mutex mode. */
  lemma OverlapLosesMode() returns (gs: seq<Guards>, es: seq<GuardEvent>)
    ensures IsSession(gs, es) && TakenOnce(es) && gs[0].mode == LockFreeMode && gs[|es|].mode == MutexMode
    ensures forall k :: 0 <= k < |es| ==> !es[k].Switch?
  {
    es := [Acquire(1), Acquire(2), Release(1), Release(2)];
    var g0 := Guards(LockFreeMode, map[]);
    var g1 := AfterEvent(g0, es[0]);
    assert 1 in g1.held.Keys;
    var g2 := AfterEvent(g1, es[1]);
    assert 1 in g2.held.Keys && 2 in g2.held.Keys;
    OneLess(g2.held, 1);
    var g3 := AfterEvent(g2, es[2]);
    assert 2 in g3.held.Keys && 2 in (g2.held - {1}).Keys;
    assert g3.held - {2} == map[];
    OneLess(g3.held, 2);
    var g4 := AfterEvent(g3, es[3]);
    gs := [g0, g1, g2, g3, g4];
  }
}
