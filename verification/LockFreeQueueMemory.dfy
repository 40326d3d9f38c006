/** How many unlinked nodes the lock-free queue can keep from the pool. */
module LockFreeQueueMemory {
  import opened LockFreeQueue
  import opened Wrappers
  import opened LockFreeQueueRuns
  import opened LockFreeQueueBounds

  /** The threads that crossed the threshold and have not finished collecting. */
  ghost function Collectors(s: State): set<Thread> {
    set t | t in s.threads && Collecting(s.threads[t].pc)
  }

  /** What may be retired with nobody collecting: a node for each hazard record, or just below the threshold. */
  function Allowance(s: State): nat {
    if |s.records| < MAX_THRESHOLD then MAX_THRESHOLD - 1 else |s.records|
  }

  ghost predicate RetiredBounded(s: State) {
    && |s.retired| <= Allowance(s) + |Collectors(s)|
    && (s.scan.Scan? ==> |s.scan.hazards| + s.scan.cursor <= |s.records|)
  }

  lemma FewerElements<T>(a: set<T>, b: set<T>)
    requires a <= b
    ensures |a| <= |b|
  {
    if a != {} {
      var x :| x in a;
      FewerElements(a - {x}, b - {x});
    }
  }

  /** A dequeuer collects exactly when at least 64 nodes and 16 for each active record, or 512, are retired. */
  lemma RetireCollectsIff(s: State, t: Thread, weak: bool, link: Node)
    requires Enabled(s, Run(t, weak, link)) && s.threads[t].pc == DRetire
    ensures var s' := After(s, Run(t, weak, link));
            && s'.retired == s.retired + {s.threads[t].head} && s'.scan == s.scan && s'.records == s.records
            && t in s'.threads && s'.threads == s.threads[t := s'.threads[t]]
            && (s'.threads[t].pc == DCollect <==>
                  |s'.retired| >= 512 || |s'.retired| >= 64 + 16 * |ActiveFrom(s.records, 0)|)
            && (s'.threads[t].pc == DCollect || s'.threads[t].pc == DCount)
  {
    hide Derefs;
    ActiveAre(s.records, 0);
    assert s.records[0..] == s.records;
  }

  /** The active records from position `from` on. */
  ghost function ActiveFrom(records: seq<Record>, from: nat): set<nat> {
    set r: nat | from <= r < |records| && records[r].active
  }

  lemma {:induction false} ActiveAre(records: seq<Record>, from: nat)
    requires from <= |records|
    ensures ActiveCount(records[from..]) == |ActiveFrom(records, from)|
    decreases |records| - from
  {
    if from == |records| {
      assert ActiveFrom(records, from) == {};
    } else {
      ActiveAre(records, from + 1);
      assert records[from..][1..] == records[from + 1..];
      var rest := ActiveFrom(records, from + 1);
      assert ActiveFrom(records, from) == if records[from].active then rest + {from} else rest;
    }
  }

  lemma RetireStepBounded(s: State, t: Thread, weak: bool, link: Node)
    requires RetiredBounded(s) && Enabled(s, Run(t, weak, link)) && s.threads[t].pc == DRetire
    ensures RetiredBounded(After(s, Run(t, weak, link)))
  {
    var s' := After(s, Run(t, weak, link));
    RetireCollectsIff(s, t, weak, link);
    hide After, Enabled;
    if s'.threads[t].pc == DCollect {
      assert Collectors(s') == Collectors(s) + {t} && t !in Collectors(s);
    } else {
      assert Collectors(s') == Collectors(s);
    }
  }

  lemma RunStepBounded(s: State, t: Thread, weak: bool, link: Node)
    requires RetiredBounded(s) && Enabled(s, Run(t, weak, link)) && s.threads[t].pc != DRetire
    ensures RetiredBounded(After(s, Run(t, weak, link)))
  {
    var s' := After(s, Run(t, weak, link));
    RunOutside(s, t, weak, link);
    RunRetiresNothing(s, t, weak, link);
    hide After, Enabled;
    assert Collectors(s') == Collectors(s);
  }

  lemma RunRetiresNothing(s: State, t: Thread, weak: bool, link: Node)
    requires Enabled(s, Run(t, weak, link)) && s.threads[t].pc != DRetire
    ensures var s' := After(s, Run(t, weak, link));
            s'.retired == s.retired && t in s'.threads && !Collecting(s.threads[t].pc) && !Collecting(s'.threads[t].pc)
  {
    hide EnqueueStep, DequeueStep, Derefs;
    if InEnqueue(s.threads[t].pc) {
      EnqueueOutside(s, t, weak, link);
      EnqueueLocal(s, t, weak, link);
    } else {
      DequeueOutside(s, t, weak);
      DequeueLocal(s, t, weak);
      DequeueCollectsLater(s, t, weak);
    }
  }

  lemma DequeueCollectsLater(s: State, t: Thread, weak: bool)
    requires t in s.threads && Derefs(s.threads[t]) <= s.next.Keys && InDequeue(s.threads[t].pc)
    requires s.threads[t].pc != DRetire && !Collecting(s.threads[t].pc) && t in DequeueStep(s, t, weak).threads
    ensures !Collecting(DequeueStep(s, t, weak).threads[t].pc)
  {
    hide Derefs, Threshold;
  }

  lemma StartStepBounded(s: State, a: Action)
    requires RetiredBounded(s) && Enabled(s, a) && (a.StartEnqueue? || a.StartDequeue?)
    ensures RetiredBounded(After(s, a))
  {
    hide EnqueueStep, DequeueStep, Derefs, StartScan, EndScan, ReadRecord, Reclaim, ClaimStep;
    assert Collectors(After(s, a)) == Collectors(s);
  }

  lemma ClaimStepBounded(s: State, t: Thread, r: nat)
    requires RetiredBounded(s) && Enabled(s, Claim(t, r))
    ensures RetiredBounded(After(s, Claim(t, r)))
  {
    hide EnqueueStep, DequeueStep, Derefs, StartScan, EndScan, ReadRecord, Reclaim, StartEnqueueStep, StartDequeueStep;
    assert Collectors(After(s, Claim(t, r))) == Collectors(s);
  }

  lemma ScanStartBounded(s: State, who: Option<Thread>)
    requires RetiredBounded(s) && Enabled(s, ScanStart(who))
    ensures RetiredBounded(StartScan(s, who))
  {
    assert Collectors(StartScan(s, who)) == Collectors(s);
  }

  lemma ScanReadBounded(s: State)
    requires RetiredBounded(s) && Enabled(s, ScanRead)
    ensures RetiredBounded(ReadRecord(s))
  {
    assert Collectors(ReadRecord(s)) == Collectors(s);
  }

  lemma ReclaimBounded(s: State, n: Node, link: Node)
    requires RetiredBounded(s)
    ensures RetiredBounded(Reclaim(s, n, link))
  {
    assert Collectors(Reclaim(s, n, link)) == Collectors(s);
    FewerElements(s.retired - {n}, s.retired);
  }

  /** A collection that ends leaves only nodes it found protected, one for each record it read. */
  lemma ScanEndBounded(s: State)
    requires RetiredBounded(s) && Enabled(s, ScanEnd)
    ensures RetiredBounded(After(s, ScanEnd))
  {
    hide EnqueueStep, DequeueStep, Derefs, StartEnqueueStep, StartDequeueStep, ClaimStep, StartScan;
    FewerElements(s.retired, s.scan.hazards);
  }

  lemma StepBounded(s: State, a: Action)
    requires RetiredBounded(s) && Enabled(s, a)
    ensures RetiredBounded(After(s, a))
  {
    match a
    case Run(t, weak, link) =>
      if s.threads[t].pc == DRetire {
        RetireStepBounded(s, t, weak, link);
      } else {
        RunStepBounded(s, t, weak, link);
      }
    case ScanEnd => ScanEndBounded(s);
    case StartEnqueue(_, _, _) => StartStepBounded(s, a);
    case StartDequeue(_) => StartStepBounded(s, a);
    case Claim(t, r) => ClaimStepBounded(s, t, r);
    case ScanStart(who) => ScanStartBounded(s, who);
    case ScanRead => ScanReadBounded(s);
    case ScanReclaim(n, link) => ReclaimBounded(s, n, link);
    hide RetiredBounded, EnqueueStep, DequeueStep, StartEnqueueStep, StartDequeueStep, ClaimStep,
      StartScan, ReadRecord, Reclaim, EndScan, Derefs;
  }

  /**
    In every run the retired nodes number at most those the hazard records can protect, or 511 if that
    is more, plus one for each thread that is on its way through a collection.
   */
  lemma {:induction false} RunRetiredBounded(states: seq<State>, actions: seq<Action>, dummy: Node, i: nat)
    requires IsRun(states, actions, dummy) && i <= |actions|
    ensures RetiredBounded(states[i])
  {
    hide After, Enabled;
    if i > 0 {
      RunRetiredBounded(states, actions, dummy, i - 1);
      hide RetiredBounded;
      StepBounded(states[i - 1], actions[i - 1]);
    }
  }
}
