/** The size counter and the bound on the steps of one operation. */
module LockFreeQueueProgress {
  import opened LockFreeQueue
  import opened LockFreeQueueInvariant
  import opened LockFreeQueueTheorems
  import opened LockFreeQueueRuns

  // ---------------------------------------------------------------- bounded operations

  function AttemptsLeft(l: Local, max: nat): (n: nat) {
    if l.retry < max then max - l.retry else 1
  }

  function InnerLeft(l: Local): (n: nat) {
    if l.inner < MAX_INNER_RETRIES then MAX_INNER_RETRIES - l.inner else 1
  }

  /** The most steps of its own a thread can still take before its operation returns. */
  function StepsLeft(l: Local): int {
    var e, d := 6 * AttemptsLeft(l, MAX_RETRIES), 37 * AttemptsLeft(l, MAX_OUTER_RETRIES);
    var i := 3 * (MAX_INNER_RETRIES - InnerLeft(l));
    match l.pc
    case Idle => 0
    case EGuard => e + 5
    case ELoadTail => e + 4
    case EProtect => e + 3
    case EValidate => e + 2
    case ELoadNext => e + 1
    case ERecheck => e
    case ELink => e - 1
    case EHelp => e - 1
    case ESwing => 3
    case ECount => 2
    case EGiveUp => 2
    case ERelease => 1
    case DGuardHead => d + 8
    case DGuardNext => d + 7
    case DLoadHead => d + 6
    case DProtectHead => d + 5
    case DValidate => d + 4
    case DLoadTail => d + 3
    case DLoadNext => d + 2 - i
    case DProtectNext => d + 1 - i
    case DVerifyNext => d - i
    case DRecheck => d - 28
    case DHelp => d - 29
    case DSwing => d - 29
    case DTake => 7
    case DRetire => 6
    case DCollect => 5
    case DScan => 4
    case DCount => 3
    case DReleaseNext => 2
    case DReleaseHead => 1
  }

  lemma EnqueueBounded(s: State, t: Thread, weak: bool, link: Node)
    requires t in s.threads && Derefs(s.threads[t]) <= s.next.Keys && InEnqueue(s.threads[t].pc)
    requires !Claiming(s.threads[t].pc) && !Collecting(s.threads[t].pc)
    ensures t in EnqueueStep(s, t, weak, link).threads
    ensures 0 <= StepsLeft(EnqueueStep(s, t, weak, link).threads[t]) < StepsLeft(s.threads[t])
  {
    if s.threads[t].pc in {ELoadTail, EProtect, EValidate, ELoadNext, ERecheck} {
      ReadBounded(s, t, weak, link);
    } else {
      LinkBounded(s, t, weak, link);
    }
    hide EnqueueStep, StepsLeft;
  }

  lemma ReadBounded(s: State, t: Thread, weak: bool, link: Node)
    requires t in s.threads && Derefs(s.threads[t]) <= s.next.Keys
    requires s.threads[t].pc in {ELoadTail, EProtect, EValidate, ELoadNext, ERecheck}
    ensures t in EnqueueStep(s, t, weak, link).threads
    ensures 0 <= StepsLeft(EnqueueStep(s, t, weak, link).threads[t]) < StepsLeft(s.threads[t])
  {
    hide Derefs, Link, HelpEnqueue, SwingToLinked, CountUp, GiveUp, ReleaseTail;
  }

  lemma LinkBounded(s: State, t: Thread, weak: bool, link: Node)
    requires t in s.threads && Derefs(s.threads[t]) <= s.next.Keys
    requires s.threads[t].pc in {ELink, EHelp, ESwing, ECount, EGiveUp, ERelease}
    ensures t in EnqueueStep(s, t, weak, link).threads
    ensures 0 <= StepsLeft(EnqueueStep(s, t, weak, link).threads[t]) < StepsLeft(s.threads[t])
  {
    hide Derefs, LoadTail, ProtectTail, ValidateTail, LoadTailNext, RecheckTail;
  }

  lemma DequeueBounded(s: State, t: Thread, weak: bool)
    requires t in s.threads && Derefs(s.threads[t]) <= s.next.Keys && InDequeue(s.threads[t].pc)
    requires !Claiming(s.threads[t].pc) && !Collecting(s.threads[t].pc)
    ensures t in DequeueStep(s, t, weak).threads
    ensures 0 <= StepsLeft(DequeueStep(s, t, weak).threads[t]) < StepsLeft(s.threads[t])
  {
    if s.threads[t].pc in {DLoadHead, DProtectHead, DValidate, DLoadTail} {
      EarlyBounded(s, t, weak);
    } else if s.threads[t].pc in {DLoadNext, DProtectNext, DVerifyNext} {
      NextBounded(s, t, weak);
    } else {
      FinishBounded(s, t, weak);
    }
    hide DequeueStep, StepsLeft;
  }

  lemma EarlyBounded(s: State, t: Thread, weak: bool)
    requires t in s.threads && Derefs(s.threads[t]) <= s.next.Keys
    requires s.threads[t].pc in {DLoadHead, DProtectHead, DValidate, DLoadTail}
    ensures t in DequeueStep(s, t, weak).threads
    ensures 0 <= StepsLeft(DequeueStep(s, t, weak).threads[t]) < StepsLeft(s.threads[t])
  {
    hide Derefs, RetryDequeue, LoadHeadNext, ProtectNext, VerifyNext,
      RecheckHead, HelpDequeue, SwingHead, Take, Retire, CountDown, ReleaseNext, ReleaseHead;
    RetryBound(s.threads[t]);
  }

  lemma NextBounded(s: State, t: Thread, weak: bool)
    requires t in s.threads && Derefs(s.threads[t]) <= s.next.Keys
    requires s.threads[t].pc in {DLoadNext, DProtectNext, DVerifyNext}
    ensures t in DequeueStep(s, t, weak).threads
    ensures 0 <= StepsLeft(DequeueStep(s, t, weak).threads[t]) < StepsLeft(s.threads[t])
  {
    hide Derefs, RetryDequeue, LoadHead, ProtectHead, ValidateHead, ReadTail,
      RecheckHead, HelpDequeue, SwingHead, Take, Retire, CountDown, ReleaseNext, ReleaseHead;
    RetryBound(s.threads[t]);
  }

  lemma FinishBounded(s: State, t: Thread, weak: bool)
    requires t in s.threads && Derefs(s.threads[t]) <= s.next.Keys
    requires s.threads[t].pc in
               {DRecheck, DHelp, DSwing, DTake, DRetire, DCount, DReleaseNext, DReleaseHead}
    ensures t in DequeueStep(s, t, weak).threads
    ensures 0 <= StepsLeft(DequeueStep(s, t, weak).threads[t]) < StepsLeft(s.threads[t])
  {
    if s.threads[t].pc in {DRecheck, DHelp, DSwing} {
      SwingBounded(s, t, weak);
    } else {
      ReturnBounded(s, t, weak);
    }
    hide DequeueStep, StepsLeft;
  }

  lemma SwingBounded(s: State, t: Thread, weak: bool)
    requires t in s.threads && Derefs(s.threads[t]) <= s.next.Keys && s.threads[t].pc in {DRecheck, DHelp, DSwing}
    ensures t in DequeueStep(s, t, weak).threads
    ensures 0 <= StepsLeft(DequeueStep(s, t, weak).threads[t]) < StepsLeft(s.threads[t])
  {
    hide Derefs, RetryDequeue, LoadHead, ProtectHead, ValidateHead, ReadTail, LoadHeadNext, ProtectNext, VerifyNext,
      Take, Retire, CountDown, ReleaseNext, ReleaseHead;
    RetryBound(s.threads[t]);
  }

  lemma ReturnBounded(s: State, t: Thread, weak: bool)
    requires t in s.threads && Derefs(s.threads[t]) <= s.next.Keys
    requires s.threads[t].pc in {DTake, DRetire, DCount, DReleaseNext, DReleaseHead}
    ensures t in DequeueStep(s, t, weak).threads
    ensures 0 <= StepsLeft(DequeueStep(s, t, weak).threads[t]) < StepsLeft(s.threads[t])
  {
    hide Derefs, RetryDequeue, Threshold, AttemptsLeft, InnerLeft,
      LoadHead, ProtectHead, ValidateHead, ReadTail, LoadHeadNext, ProtectNext, VerifyNext,
      RecheckHead, HelpDequeue, SwingHead;
  }

  lemma RetryBound(l: Local)
    ensures 0 <= StepsLeft(RetryDequeue(l)) <= 37 * AttemptsLeft(l, MAX_OUTER_RETRIES) - 30
  {
  }

  // ---------------------------------------------------------------- the size counter

  /** Enqueuers that have linked and not yet counted up. */
  function Linkers(s: State): set<Thread> {
    set t | t in s.threads && s.threads[t].pc in {ESwing, ECount}
  }

  /** Dequeuers that have swung `head` and not yet counted down. */
  function Swingers(s: State): set<Thread> {
    set t | t in s.threads && s.threads[t].pc in {DTake, DRetire, DCollect, DScan, DCount}
  }

  function Links(pc: Pc): int {
    if pc in {ESwing, ECount} then 1 else 0
  }

  function Swings(pc: Pc): int {
    if pc in {DTake, DRetire, DCollect, DScan, DCount} then 1 else 0
  }

  function Weight(pc: Pc): int {
    Links(pc) - Swings(pc)
  }

  /** One thread moves: the two sets change by its weight. */
  lemma LinkersMove(s: State, s': State, t: Thread)
    requires t in s.threads && t in s'.threads && s'.threads == s.threads[t := s'.threads[t]]
    ensures |Linkers(s')| - |Linkers(s)| == Links(s'.threads[t].pc) - Links(s.threads[t].pc)
  {
    assert Linkers(s') - {t} == Linkers(s) - {t};
    WithOne(Linkers(s), t);
    WithOne(Linkers(s'), t);
  }

  lemma SwingersMove(s: State, s': State, t: Thread)
    requires t in s.threads && t in s'.threads && s'.threads == s.threads[t := s'.threads[t]]
    ensures |Swingers(s')| - |Swingers(s)| == Swings(s'.threads[t].pc) - Swings(s.threads[t].pc)
  {
    assert Swingers(s') - {t} == Swingers(s) - {t};
    WithOne(Swingers(s), t);
    WithOne(Swingers(s'), t);
  }

  lemma WithOne(u: set<Thread>, t: Thread)
    ensures |u| == |u - {t}| + if t in u then 1 else 0
  {
    if t !in u {
      assert u - {t} == u;
    }
  }

  lemma WeightMoves(s: State, s': State, t: Thread)
    requires t in s.threads && t in s'.threads && s'.threads == s.threads[t := s'.threads[t]]
    ensures |Linkers(s')| - |Swingers(s')|
            == |Linkers(s)| - |Swingers(s)| + Weight(s'.threads[t].pc) - Weight(s.threads[t].pc)
  {
    hide Linkers, Swingers;
    LinkersMove(s, s', t);
    SwingersMove(s, s', t);
  }

  /** How a step changes the length of the queue. */
  function Growth(e: Effect): int {
    match e
    case Keep => 0
    case Append(_) => 1
    case RemoveFirst => -1
  }

  /** The counter moves exactly when a thread leaves the two sets without an effect on the queue. */
  ghost predicate Counts(s: State, s': State, t: Thread, growth: int)
    requires t in s.threads && t in s'.threads
  {
    var moved := growth - Weight(s'.threads[t].pc) + Weight(s.threads[t].pc);
    && (moved == 0 ==> s'.size == s.size)
    && (moved == 1 ==> s'.size == (s.size + 1) % WORD)
    && (moved == -1 ==> s'.size == (s.size + WORD - 1) % WORD)
    && -1 <= moved <= 1
  }

  lemma EnqueueCounts(s: State, t: Thread, weak: bool, link: Node)
    requires Enabled(s, Run(t, weak, link)) && InEnqueue(s.threads[t].pc)
    requires t in EnqueueStep(s, t, weak, link).threads
    ensures Counts(s, EnqueueStep(s, t, weak, link), t, Growth(EffectOf(s, Run(t, weak, link))))
  {
    hide Derefs;
  }

  lemma DequeueCounts(s: State, t: Thread, weak: bool, link: Node)
    requires Enabled(s, Run(t, weak, link)) && InDequeue(s.threads[t].pc)
    requires t in DequeueStep(s, t, weak).threads
    ensures Counts(s, DequeueStep(s, t, weak), t, Growth(EffectOf(s, Run(t, weak, link))))
  {
    if s.threads[t].pc in {DRecheck, DHelp, DSwing, DTake, DRetire, DCount, DReleaseNext, DReleaseHead} {
      FinishCounts(s, t, weak, link);
    } else {
      SearchCounts(s, t, weak, link);
    }
    hide DequeueStep, Counts, EffectOf;
  }

  lemma SearchCounts(s: State, t: Thread, weak: bool, link: Node)
    requires Enabled(s, Run(t, weak, link)) && t in DequeueStep(s, t, weak).threads
    requires s.threads[t].pc in
               {DLoadHead, DProtectHead, DValidate, DLoadTail, DLoadNext, DProtectNext, DVerifyNext}
    ensures Counts(s, DequeueStep(s, t, weak), t, Growth(EffectOf(s, Run(t, weak, link))))
  {
    hide Derefs, RetryDequeue, RecheckHead, HelpDequeue, SwingHead, Take, Retire, CountDown, ReleaseNext, ReleaseHead;
    RetryWeight(s.threads[t]);
  }

  lemma FinishCounts(s: State, t: Thread, weak: bool, link: Node)
    requires Enabled(s, Run(t, weak, link)) && t in DequeueStep(s, t, weak).threads
    requires s.threads[t].pc in
               {DRecheck, DHelp, DSwing, DTake, DRetire, DCount, DReleaseNext, DReleaseHead}
    ensures Counts(s, DequeueStep(s, t, weak), t, Growth(EffectOf(s, Run(t, weak, link))))
  {
    if s.threads[t].pc in {DRecheck, DHelp, DSwing} {
      SwingCounts(s, t, weak, link);
    } else {
      ReturnCounts(s, t, weak, link);
    }
    hide DequeueStep, Counts, EffectOf;
  }

  lemma SwingCounts(s: State, t: Thread, weak: bool, link: Node)
    requires Enabled(s, Run(t, weak, link)) && t in DequeueStep(s, t, weak).threads
    requires s.threads[t].pc in {DRecheck, DHelp, DSwing}
    ensures Counts(s, DequeueStep(s, t, weak), t, Growth(EffectOf(s, Run(t, weak, link))))
  {
    hide Derefs, RetryDequeue, LoadHead, ProtectHead, ValidateHead, ReadTail, LoadHeadNext, ProtectNext, VerifyNext,
      Take, Retire, CountDown, ReleaseNext, ReleaseHead;
    RetryWeight(s.threads[t]);
  }

  lemma ReturnCounts(s: State, t: Thread, weak: bool, link: Node)
    requires Enabled(s, Run(t, weak, link)) && t in DequeueStep(s, t, weak).threads
    requires s.threads[t].pc in {DTake, DRetire, DCount, DReleaseNext, DReleaseHead}
    ensures Counts(s, DequeueStep(s, t, weak), t, Growth(EffectOf(s, Run(t, weak, link))))
  {
    hide Derefs, RetryDequeue, Threshold,
      LoadHead, ProtectHead, ValidateHead, ReadTail, LoadHeadNext, ProtectNext, VerifyNext,
      RecheckHead, HelpDequeue, SwingHead;
  }

  lemma RetryWeight(l: Local)
    ensures Weight(RetryDequeue(l).pc) == 0
  {
  }

  lemma StepCounts(s: State, a: Action)
    requires Enabled(s, a)
    ensures var s' := After(s, a);
            if a.Run? then s.threads.Keys == s'.threads.Keys && s'.threads == s.threads[a.t := s'.threads[a.t]]
                           && Counts(s, s', a.t, Growth(EffectOf(s, a)))
            else s'.size == s.size && Linkers(s') == Linkers(s) && Swingers(s') == Swingers(s)
  {
    hide EnqueueStep, DequeueStep, Counts, Growth;
    if a.Run? {
      hide Linkers, Swingers;
      if InEnqueue(s.threads[a.t].pc) {
        EnqueueLocal(s, a.t, a.weak, a.link);
        EnqueueCounts(s, a.t, a.weak, a.link);
      } else {
        DequeueLocal(s, a.t, a.weak);
        DequeueCounts(s, a.t, a.weak, a.link);
      }
    } else {
      QuietCounts(s, a);
    }
  }

  lemma QuietCounts(s: State, a: Action)
    requires Enabled(s, a) && !a.Run?
    ensures var s' := After(s, a); s'.size == s.size && Linkers(s') == Linkers(s) && Swingers(s') == Swingers(s)
  {
    hide EnqueueStep, DequeueStep, Derefs;
  }

  /** The counter agrees with the queue up to the operations that have not counted yet, modulo 2^64. */
  ghost predicate SizeOk(s: State) {
    s.size == (|Contents(s)| - |Linkers(s)| + |Swingers(s)|) % WORD
  }

  lemma ModStep(x: int, d: int)
    requires -1 <= d <= 1
    ensures d == 1 ==> (x % WORD + 1) % WORD == (x + 1) % WORD
    ensures d == -1 ==> (x % WORD + WORD - 1) % WORD == (x - 1) % WORD
  {
    var q, r := x / WORD, x % WORD;
    assert x == q * WORD + r;
    if d == 1 {
      assert (x + 1) - (r + 1) == q * WORD;
    }
  }

  lemma SizeStep(s: State, g: Aux, a: Action)
    requires Inv(s, g) && Enabled(s, a) && SizeOk(s)
    ensures SizeOk(After(s, a))
  {
    hide Inv, Contents, After, EffectOf, Enabled, Linkers, Swingers, Weight;
    StepRefines(s, g, a);
    StepCounts(s, a);
    var s' := After(s, a);
    if a.Run? {
      WeightMoves(s, s', a.t);
      var x := |Contents(s)| - |Linkers(s)| + |Swingers(s)|;
      ModStep(x, |Contents(s')| - |Linkers(s')| + |Swingers(s')| - x);
    } else {
      NotRunKeeps(s, a);
    }
  }

  lemma NotRunKeeps(s: State, a: Action)
    requires Enabled(s, a) && !a.Run?
    ensures EffectOf(s, a).Keep?
  {
  }

  /** In every run `approximate_size_` is the length plus what has not been counted, modulo 2^64. */
  lemma {:induction false} RunSize(states: seq<State>, actions: seq<Action>, dummy: Node, i: nat)
    requires IsRun(states, actions, dummy) && i <= |actions|
    ensures SizeOk(states[i])
  {
    hide Inv, After, Enabled, SizeOk;
    if i == 0 {
      RunIsFifo(states, actions, dummy);
      InitialSize(states[0], dummy);
    } else {
      RunSize(states, actions, dummy, i - 1);
      RunInv(states, actions, dummy, i - 1);
      SizeStep(states[i - 1], AuxAt(states, actions, dummy, i - 1), actions[i - 1]);
    }
  }

  lemma InitialSize(s: State, dummy: Node)
    requires Init(s, dummy) && Contents(s) == []
    ensures SizeOk(s)
  {
    hide Contents;
    assert Linkers(s) == {} && Swingers(s) == {};
  }
}
