/**
  How many steps of its own an operation takes, and when it has to wait.  A call may wait
  for the lock of the retired list, and a dequeue that crosses the threshold runs a
  collection itself: the bounds charge the collection to that call and do not count waiting.
 */
module LockFreeQueueBounds {
  import opened LockFreeQueue
  import opened Wrappers
  import opened LockFreeQueueRuns
  import opened LockFreeQueueProgress

  // ---------------------------------------------------------------- who holds the lock

  /** A thread is inside a collection exactly when it holds the lock for one. */
  ghost predicate ScanOwned(s: State) {
    && (s.scan.Scan? ==> s.scan.cursor <= |s.records|)
    && (s.scan.Scan? && s.scan.who.Some? ==> s.scan.who.value in s.threads)
    && forall t :: t in s.threads ==> (s.threads[t].pc == DScan <==> s.scan.Scan? && s.scan.who == Some(t))
  }

  lemma EnqueueOutside(s: State, t: Thread, weak: bool, link: Node)
    requires t in s.threads && Derefs(s.threads[t]) <= s.next.Keys && InEnqueue(s.threads[t].pc)
    ensures var s' := EnqueueStep(s, t, weak, link);
            s'.scan == s.scan && s'.retired == s.retired && |s'.records| == |s.records|
  {
    hide Derefs, RetryEnqueue;
  }

  /** No step of a dequeue outside the collection touches the scan, and only retiring adds a node. */
  lemma DequeueOutside(s: State, t: Thread, weak: bool)
    requires t in s.threads && Derefs(s.threads[t]) <= s.next.Keys && InDequeue(s.threads[t].pc)
    ensures var s' := DequeueStep(s, t, weak);
            s'.scan == s.scan && |s'.records| == |s.records| && (s.threads[t].pc != DRetire ==> s'.retired == s.retired)
  {
    hide Derefs, RetryDequeue;
  }

  /** Steps of other kinds never enter a collection. */
  lemma RunOutside(s: State, t: Thread, weak: bool, link: Node)
    requires Enabled(s, Run(t, weak, link))
    ensures var s' := After(s, Run(t, weak, link));
            && s'.scan == s.scan && |s'.records| == |s.records|
            && (s.scan.Scan? ==> s'.retired == s.retired)
            && t in s'.threads && s'.threads == s.threads[t := s'.threads[t]] && s'.threads[t].pc != DScan
  {
    hide EnqueueStep, DequeueStep, Derefs;
    if InEnqueue(s.threads[t].pc) {
      EnqueueOutside(s, t, weak, link);
      EnqueueLocal(s, t, weak, link);
    } else {
      DequeueOutside(s, t, weak);
      DequeueLocal(s, t, weak);
      DequeueBounded(s, t, weak);
      DequeueNotScan(s, t, weak);
    }
  }

  lemma DequeueNotScan(s: State, t: Thread, weak: bool)
    requires t in s.threads && Derefs(s.threads[t]) <= s.next.Keys && InDequeue(s.threads[t].pc)
    requires !Collecting(s.threads[t].pc) && t in DequeueStep(s, t, weak).threads
    ensures DequeueStep(s, t, weak).threads[t].pc != DScan
  {
    hide Derefs;
  }

  lemma RunStepOwned(s: State, t: Thread, weak: bool, link: Node)
    requires ScanOwned(s) && Enabled(s, Run(t, weak, link))
    ensures ScanOwned(After(s, Run(t, weak, link)))
  {
    RunOutside(s, t, weak, link);
    assert s.threads[t].pc != DScan;
    hide After, Enabled;
  }

  lemma ScanStepOwned(s: State, a: Action)
    requires ScanOwned(s) && Enabled(s, a) && (a.ScanStart? || a.ScanRead? || a.ScanReclaim? || a.ScanEnd?)
    ensures ScanOwned(After(s, a))
  {
    hide EnqueueStep, DequeueStep, Derefs, StartEnqueueStep, StartDequeueStep, ClaimStep;
  }

  lemma QuietStepOwned(s: State, a: Action)
    requires ScanOwned(s) && Enabled(s, a) && (a.StartEnqueue? || a.StartDequeue? || a.Claim?)
    ensures ScanOwned(After(s, a))
  {
    hide EnqueueStep, DequeueStep, Derefs, StartScan, EndScan, ReadRecord, Reclaim;
  }

  lemma StepOwned(s: State, a: Action)
    requires ScanOwned(s) && Enabled(s, a)
    ensures ScanOwned(After(s, a))
  {
    hide After, ScanOwned, Enabled;
    if a.Run? {
      RunStepOwned(s, a.t, a.weak, a.link);
    } else if a.ScanStart? || a.ScanRead? || a.ScanReclaim? || a.ScanEnd? {
      ScanStepOwned(s, a);
    } else {
      QuietStepOwned(s, a);
    }
  }

  lemma {:induction false} RunOwned(states: seq<State>, actions: seq<Action>, dummy: Node, i: nat)
    requires IsRun(states, actions, dummy) && i <= |actions|
    ensures ScanOwned(states[i])
  {
    if i > 0 {
      RunOwned(states, actions, dummy, i - 1);
      hide After;
      StepOwned(states[i - 1], actions[i - 1]);
    }
  }

  // ---------------------------------------------------------------- waiting

  /** The thread wants the lock of the retired list and a collection holds it. */
  predicate Waits(s: State, t: Thread)
    requires t in s.threads
  {
    s.threads[t].pc in {DRetire, DCollect} && s.scan.Scan?
  }

  ghost predicate CanMove(s: State, t: Thread) {
    exists a :: Enabled(s, a) && Actor(s, a) == Some(t)
  }

  lemma ScanCanMove(s: State) returns (a: Action)
    requires ScanOwned(s) && s.scan.Scan?
    ensures (a.ScanRead? || a.ScanReclaim? || a.ScanEnd?) && Enabled(s, a) && Actor(s, a) == s.scan.who
  {
    if s.scan.cursor > 0 {
      a := ScanRead;
    } else if s.retired <= s.scan.hazards {
      a := ScanEnd;
    } else {
      var n :| n in s.retired && n !in s.scan.hazards;
      a := ScanReclaim(n, NULL);
    }
  }

  lemma MovesUnlessWaiting(s: State, t: Thread)
    requires ScanOwned(s) && t in s.threads && s.threads[t].pc != Idle && Derefs(s.threads[t]) <= s.next.Keys
    requires !Waits(s, t)
    ensures CanMove(s, t)
  {
    hide Derefs;
    if s.threads[t].pc == DScan {
      var a := ScanCanMove(s);
    } else if s.threads[t].pc == DCollect {
      assert Enabled(s, ScanStart(Some(t))) && Actor(s, ScanStart(Some(t))) == Some(t);
    } else if Claiming(s.threads[t].pc) {
      assert Enabled(s, Claim(t, |s.records|)) && Actor(s, Claim(t, |s.records|)) == Some(t);
    } else {
      assert Enabled(s, Run(t, false, NULL)) && Actor(s, Run(t, false, NULL)) == Some(t);
    }
  }

  /**
    In every state of every run an operation can take a step of its own unless, and only
    unless, it wants the lock of the retired list while a collection holds it; and then the
    collection can go on.
   */
  lemma WaitsIff(states: seq<State>, actions: seq<Action>, dummy: Node, i: nat, t: Thread)
    requires IsRun(states, actions, dummy) && i <= |actions|
    requires t in states[i].threads && states[i].threads[t].pc != Idle
    ensures CanMove(states[i], t) <==> !Waits(states[i], t)
    ensures Waits(states[i], t) ==>
              exists a :: Enabled(states[i], a) && Actor(states[i], a) == states[i].scan.who
  {
    hide After, Enabled;
    var s := states[i];
    RunOwned(states, actions, dummy, i);
    RunNeverTouchesRecycled(states, actions, dummy, i, t);
    if Waits(s, t) {
      var a := ScanCanMove(s);
      forall a | Enabled(s, a)
        ensures Actor(s, a) != Some(t)
      {
        WaitingCannotMove(s, t, a);
      }
    } else {
      MovesUnlessWaiting(s, t);
    }
  }

  lemma WaitingCannotMove(s: State, t: Thread, a: Action)
    requires ScanOwned(s) && t in s.threads && Waits(s, t) && Enabled(s, a)
    ensures Actor(s, a) != Some(t)
  {
    hide Derefs;
    assert s.scan.who != Some(t);
  }

  // ---------------------------------------------------------------- own steps

  /** What is left of a collection: records to read and unprotected nodes to free. */
  ghost function ScanLeft(s: State): nat {
    if s.scan.Scan? then s.scan.cursor + |s.retired - s.scan.hazards| else 0
  }

  /** The steps of its own an operation still has before it, with the collection it is in. */
  ghost function Left(s: State, t: Thread): int
    requires t in s.threads
  {
    StepsLeft(s.threads[t]) + if s.threads[t].pc == DScan then ScanLeft(s) else 0
  }

  /** A call that starts a collection takes the records and the retired nodes upon itself. */
  function Charge(s: State, a: Action): nat {
    if a.ScanStart? then |s.records| + |s.retired| else 0
  }

  lemma Fewer(a: set<Node>, b: set<Node>)
    requires a <= b
    ensures |a| <= |b|
  {
    assert b == a + (b - a);
  }

  lemma ReadLeft(s: State)
    requires s.scan.Scan? && 0 < s.scan.cursor <= |s.records|
    ensures ScanLeft(ReadRecord(s)) < ScanLeft(s)
  {
    var s' := ReadRecord(s);
    Fewer(s'.retired - s'.scan.hazards, s.retired - s.scan.hazards);
  }

  lemma ReclaimLeft(s: State, n: Node, link: Node)
    requires s.scan.Scan? && n in s.retired && n !in s.scan.hazards
    ensures ScanLeft(Reclaim(s, n, link)) < ScanLeft(s)
  {
    assert (s.retired - {n}) - s.scan.hazards == (s.retired - s.scan.hazards) - {n};
  }

  lemma StartLeft(s: State, t: Thread)
    requires t in s.threads
    ensures ScanLeft(StartScan(s, Some(t))) == |s.records| + |s.retired|
  {
    assert s.retired - {} == s.retired;
  }

  /** What a step of a collection does for the thread that runs it. */
  ghost predicate ScanBounded(s: State, a: Action, s': State, t: Thread)
    requires t in s.threads
  {
    && t in s'.threads && 0 < StepsLeft(s'.threads[t]) <= StepsLeft(s.threads[t])
    && Left(s', t) < Left(s, t) + Charge(s, a)
    && (a.ScanStart? ==> StepsLeft(s.threads[t]) == 5 && StepsLeft(s'.threads[t]) == 4)
  }

  lemma ScanEdgeBounded(s: State, a: Action, t: Thread)
    requires ScanOwned(s) && Enabled(s, a) && t in s.threads && Actor(s, a) == Some(t)
    requires a.ScanStart? || a.ScanEnd?
    ensures ScanBounded(s, a, After(s, a), t)
  {
    hide EnqueueStep, DequeueStep, Derefs, ScanLeft;
    if a.ScanStart? {
      StartLeft(s, t);
    }
  }

  lemma ScanInnerBounded(s: State, a: Action, t: Thread)
    requires ScanOwned(s) && Enabled(s, a) && t in s.threads && Actor(s, a) == Some(t)
    requires a.ScanRead? || a.ScanReclaim?
    ensures ScanBounded(s, a, After(s, a), t)
  {
    hide EnqueueStep, DequeueStep, Derefs, ScanLeft;
    if a.ScanRead? {
      ReadLeft(s);
    } else {
      ReclaimLeft(s, a.node, a.link);
    }
    assert s.threads[t].pc == DScan && StepsLeft(s.threads[t]) == 4;
  }

  /** The steps of a collection, for the thread that runs it. */
  lemma ScanStepBounded(s: State, a: Action, t: Thread)
    requires ScanOwned(s) && Enabled(s, a) && t in s.threads && Actor(s, a) == Some(t)
    requires a.ScanStart? || a.ScanRead? || a.ScanReclaim? || a.ScanEnd?
    ensures ScanBounded(s, a, After(s, a), t)
  {
    hide ScanBounded, ScanOwned, Enabled, After;
    if a.ScanStart? || a.ScanEnd? {
      ScanEdgeBounded(s, a, t);
    } else {
      ScanInnerBounded(s, a, t);
    }
  }

  lemma RunBounded(s: State, a: Action, t: Thread)
    requires Enabled(s, a) && t in s.threads && s.threads[t].pc != Idle && Actor(s, a) == Some(t)
    requires a.Run? || a.Claim?
    ensures var s' := After(s, a);
            && t in s'.threads && 0 <= StepsLeft(s'.threads[t]) < StepsLeft(s.threads[t]) && s'.threads[t].pc != DScan
  {
    hide EnqueueStep, DequeueStep, Derefs;
    if a.Run? {
      RunOutside(s, t, a.weak, a.link);
      if InEnqueue(s.threads[t].pc) {
        EnqueueBounded(s, t, a.weak, a.link);
      } else {
        DequeueBounded(s, t, a.weak);
      }
    }
  }

  /** While a thread collects, nobody else moves the scan or the retired nodes. */
  lemma ScanUndisturbed(s: State, a: Action, t: Thread)
    requires ScanOwned(s) && Enabled(s, a) && t in s.threads && s.threads[t].pc == DScan && Actor(s, a) != Some(t)
    ensures ScanLeft(After(s, a)) == ScanLeft(s)
  {
    if a.Run? {
      RunOutside(s, a.t, a.weak, a.link);
      hide After;
    } else {
      hide EnqueueStep, DequeueStep, Derefs;
    }
  }

  /**
    Each own step of an operation lowers what it has left, where starting a collection first
    adds its size; steps of others add nothing.
   */
  lemma OwnStepsBounded(s: State, a: Action, t: Thread)
    requires ScanOwned(s) && Enabled(s, a) && t in s.threads && s.threads[t].pc != Idle
    ensures t in After(s, a).threads
    ensures Actor(s, a) == Some(t) ==>
              && Left(After(s, a), t) < Left(s, t) + Charge(s, a)
              && 0 <= StepsLeft(After(s, a).threads[t]) <= StepsLeft(s.threads[t])
    ensures Actor(s, a) != Some(t) ==>
              After(s, a).threads[t] == s.threads[t] && Left(After(s, a), t) <= Left(s, t)
  {
    hide After, StepsLeft, ScanLeft, ScanOwned;
    if Actor(s, a) != Some(t) {
      OthersStay(s, a, t);
      if s.threads[t].pc == DScan {
        ScanUndisturbed(s, a, t);
      }
    } else if a.Run? || a.Claim? {
      RunBounded(s, a, t);
    } else {
      NotStarting(s, a, t);
      ScanStepBounded(s, a, t);
    }
  }

  lemma NotStarting(s: State, a: Action, t: Thread)
    requires Enabled(s, a) && t in s.threads && s.threads[t].pc != Idle && Actor(s, a) == Some(t)
    ensures !a.StartEnqueue? && !a.StartDequeue?
  {
  }

  // ---------------------------------------------------------------- whole calls

  /** The own steps of `t` from state `i` to state `j`. */
  ghost function OwnSteps(states: seq<State>, actions: seq<Action>, t: Thread, i: nat, j: nat): nat
    requires i <= j <= |actions| < |states|
    decreases j
  {
    if i == j then 0
    else OwnSteps(states, actions, t, i, j - 1) + if Actor(states[j - 1], actions[j - 1]) == Some(t) then 1 else 0
  }

  /** The sizes of the collections that `t` started from state `i` to state `j`. */
  ghost function Charges(states: seq<State>, actions: seq<Action>, t: Thread, i: nat, j: nat): nat
    requires i <= j <= |actions| < |states|
    decreases j
  {
    if i == j then 0
    else
      Charges(states, actions, t, i, j - 1)
      + if Actor(states[j - 1], actions[j - 1]) == Some(t) then Charge(states[j - 1], actions[j - 1]) else 0
  }

  /** The thread is inside one operation from state `i` on, up to the step to state `j`. */
  ghost predicate InCall(states: seq<State>, t: Thread, i: nat, j: nat)
    requires i <= j < |states|
  {
    forall k :: i <= k < j ==> t in states[k].threads && states[k].threads[t].pc != Idle
  }

  lemma {:induction false} StretchBound(states: seq<State>, actions: seq<Action>, dummy: Node,
                                        t: Thread, i: nat, j: nat)
    requires IsRun(states, actions, dummy) && i <= j <= |actions| && InCall(states, t, i, j)
    requires t in states[i].threads && 0 <= StepsLeft(states[i].threads[t])
    ensures t in states[j].threads && 0 <= StepsLeft(states[j].threads[t]) <= StepsLeft(states[i].threads[t])
    ensures OwnSteps(states, actions, t, i, j) + Left(states[j], t)
            <= Left(states[i], t) + Charges(states, actions, t, i, j)
    decreases j
  {
    hide After, Left, StepsLeft, Enabled, ScanOwned, Charge;
    if i < j {
      StretchBound(states, actions, dummy, t, i, j - 1);
      RunOwned(states, actions, dummy, j - 1);
      OwnStepsBounded(states[j - 1], actions[j - 1], t);
    }
  }

  lemma StartLeftBound(s: State, a: Action)
    requires Enabled(s, a) && (a.StartEnqueue? || a.StartDequeue?)
    ensures a.t in After(s, a).threads
    ensures 0 <= Left(After(s, a), a.t) <= if a.StartEnqueue? then 6005 else 3708
    ensures 0 <= StepsLeft(After(s, a).threads[a.t])
  {
  }

  /**
    The own steps of a call, guards claimed and released in one step each and waiting not
    counted: at most 6005 for an enqueue and 3708 for a dequeue, plus the records and the
    retired nodes of the collection it ran.
   */
  lemma CallBound(states: seq<State>, actions: seq<Action>, dummy: Node, b: nat, j: nat)
    requires IsRun(states, actions, dummy) && b < j <= |actions|
    requires (actions[b].StartEnqueue? || actions[b].StartDequeue?) && InCall(states, actions[b].t, b + 1, j)
    ensures OwnSteps(states, actions, actions[b].t, b + 1, j)
            <= (if actions[b].StartEnqueue? then 6005 else 3708) + Charges(states, actions, actions[b].t, b + 1, j)
  {
    hide After, StepsLeft, Enabled, Charge;
    StartLeftBound(states[b], actions[b]);
    StretchBound(states, actions, dummy, actions[b].t, b + 1, j);
    assert Left(states[j], actions[b].t) >= 0;
  }

  /** A call runs at most one collection. */
  lemma CollectsOnce(states: seq<State>, actions: seq<Action>, dummy: Node, t: Thread, k: nat, m: nat)
    requires IsRun(states, actions, dummy) && k < m < |actions|
    requires InCall(states, t, k, m + 1) && actions[k] == ScanStart(Some(t))
    ensures actions[m] != ScanStart(Some(t))
  {
    hide After, StepsLeft, ScanOwned;
    RunOwned(states, actions, dummy, k);
    ScanStepBounded(states[k], actions[k], t);
    StretchBound(states, actions, dummy, t, k + 1, m);
    if actions[m] == ScanStart(Some(t)) {
      RunOwned(states, actions, dummy, m);
      ScanStepBounded(states[m], actions[m], t);
    }
  }
}
