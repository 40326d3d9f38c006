/**
  Lock-freedom of the queue: an attempt of `enqueue` or `dequeue` fails only if, since it
  began, somebody linked a node or swung `head` or `tail`, or a weak compare-and-swap of its
  own failed for no reason.  So the answers "busy" and "gave up" have their causes in the run.
 */
module LockFreeQueueRetries {
  import opened LockFreeQueue
  import opened Wrappers
  import opened LockFreeQueueInvariant
  import opened LockFreeQueueUpdates
  import opened LockFreeQueueTheorems
  import opened LockFreeQueueRuns

  // ---------------------------------------------------------------- causes

  /** A compare-and-swap on a link, `head` or `tail` succeeds. */
  predicate Advances(s: State, a: Action) {
    a.Run? && a.t in s.threads && !a.weak
    && (var l := s.threads[a.t];
        || (l.pc == ELink && l.tail in s.next && s.next[l.tail] == NULL)
        || (l.pc == DSwing && s.head == l.head)
        || (l.pc in {EHelp, ESwing, DHelp} && s.tail == l.tail))
  }

  /** A weak compare-and-swap of an attempt fails for no reason. */
  predicate Spurious(s: State, a: Action) {
    a.Run? && a.t in s.threads && a.weak && s.threads[a.t].pc in {ELink, EHelp, DHelp, DSwing}
  }

  /** The pcs of an attempt. */
  predicate InLoop(pc: Pc) {
    pc in {ELoadTail, EProtect, EValidate, ELoadNext, ERecheck, ELink, EHelp,
           DLoadHead, DProtectHead, DValidate, DLoadTail, DLoadNext, DProtectNext, DVerifyNext, DRecheck, DHelp, DSwing}
  }

  predicate AtTop(pc: Pc) {
    pc == ELoadTail || pc == DLoadHead
  }

  /** How many attempts of the call have failed. */
  function Tries(l: Local): nat {
    if InLoop(l.pc) || Claiming(l.pc) then l.retry
    else if l.pc == EGiveUp || (l.pc == ERelease && l.outcome == Busy) then MAX_RETRIES
    else if l.pc in {DReleaseNext, DReleaseHead} && l.outcome == Exhausted then MAX_OUTER_RETRIES
    else 0
  }

  // ---------------------------------------------------------------- what an attempt has seen

  /** The node linked after position `p`. */
  function NextAt(g: Aux, p: nat): Node {
    if p + 1 < |g.hist| then g.hist[p + 1] else NULL
  }

  /** Everything the attempt has read is still so. */
  predicate Fresh(g: Aux, l: Local) {
    && g.headPos < |g.hist| && g.tailPos < |g.hist|
    && (l.pc in {EProtect, EValidate, ELoadNext, ERecheck, ELink, EHelp} ==> l.tail == g.hist[g.tailPos])
    && (l.pc in {ERecheck, ELink, EHelp} ==> l.next == NextAt(g, g.tailPos))
    && (l.pc == ELink ==> l.next == NULL)
    && (l.pc in {DProtectHead, DValidate, DLoadTail, DLoadNext, DProtectNext, DVerifyNext, DRecheck, DHelp, DSwing} ==>
          l.head == g.hist[g.headPos])
    && (l.pc in {DLoadNext, DProtectNext, DVerifyNext, DRecheck, DHelp, DSwing} ==> l.tail == g.hist[g.tailPos])
    && (l.pc in {DProtectNext, DVerifyNext, DRecheck, DHelp, DSwing} ==> l.next == NextAt(g, g.headPos))
  }

  /** What the invariant says about the two ends of the list. */
  predicate Ends(s: State, g: Aux) {
    && g.headPos <= g.tailPos < |g.hist|
    && s.head == g.hist[g.headPos] && s.head in s.next && s.next[s.head] == NextAt(g, g.headPos)
    && s.tail == g.hist[g.tailPos] && s.tail in s.next && s.next[s.tail] == NextAt(g, g.tailPos)
    && (g.headPos < g.tailPos ==> NextAt(g, g.headPos) != NULL)
  }

  lemma EndsAre(s: State, g: Aux)
    requires Inv(s, g)
    ensures Ends(s, g)
  {
    hide PosOk, NextOk, DataOk, PlacesOk, ThreadOk;
    ListedNode(s, g, g.headPos);
    ListedNode(s, g, g.tailPos);
    if g.headPos < g.tailPos {
      ListedNode(s, g, g.headPos + 1);
    }
  }

  // ---------------------------------------------------------------- one step of the attempt

  /** How a step of its own moves a call through its attempts. */
  ghost predicate Tried(s: State, g: Aux, a: Action, l: Local, l': Local) {
    && Tries(l') <= Tries(l) + 1
    && (InLoop(l'.pc) && !AtTop(l'.pc) ==> InLoop(l.pc))
    && (Tries(l') > Tries(l) ==> InLoop(l.pc) && (AtTop(l'.pc) || !InLoop(l'.pc)))
    && (InLoop(l.pc) && Fresh(g, l) && !Advances(s, a) && !Spurious(s, a) ==> Tries(l') <= Tries(l))
    && (InLoop(l.pc) && Fresh(g, l) && !Advances(s, a) && InLoop(l'.pc) && !AtTop(l'.pc) ==> Fresh(g, l'))
  }

  ghost predicate TriedTo(s: State, g: Aux, t: Thread, weak: bool, s': State) {
    && t in s.threads && t in s'.threads
    && (s'.threads[t].pc != Idle ==> Tried(s, g, Run(t, weak, NULL), s.threads[t], s'.threads[t]))
  }

  lemma LoadTailTried(s: State, g: Aux, t: Thread, weak: bool)
    requires Ends(s, g) && t in s.threads && s.threads[t].pc == ELoadTail
    ensures TriedTo(s, g, t, weak, LoadTail(s, t))
  {
  }

  lemma ProtectTailTried(s: State, g: Aux, t: Thread, weak: bool)
    requires Ends(s, g) && t in s.threads && s.threads[t].pc == EProtect
    ensures TriedTo(s, g, t, weak, ProtectTail(s, t))
  {
  }

  lemma ValidateTailTried(s: State, g: Aux, t: Thread, weak: bool)
    requires Ends(s, g) && t in s.threads && s.threads[t].pc == EValidate
    ensures TriedTo(s, g, t, weak, ValidateTail(s, t))
  {
  }

  lemma LoadTailNextTried(s: State, g: Aux, t: Thread, weak: bool)
    requires Ends(s, g) && t in s.threads && s.threads[t].pc == ELoadNext && s.threads[t].tail in s.next
    ensures TriedTo(s, g, t, weak, LoadTailNext(s, t))
  {
  }

  lemma RecheckTailTried(s: State, g: Aux, t: Thread, weak: bool)
    requires Ends(s, g) && t in s.threads && s.threads[t].pc == ERecheck
    ensures TriedTo(s, g, t, weak, RecheckTail(s, t))
  {
  }

  lemma LinkTried(s: State, g: Aux, t: Thread, weak: bool)
    requires Ends(s, g) && t in s.threads && s.threads[t].pc == ELink && s.threads[t].tail in s.next
    ensures TriedTo(s, g, t, weak, Link(s, t, weak))
  {
  }

  lemma HelpEnqueueTried(s: State, g: Aux, t: Thread, weak: bool)
    requires Ends(s, g) && t in s.threads && s.threads[t].pc == EHelp
    ensures TriedTo(s, g, t, weak, HelpEnqueue(s, t, weak))
  {
  }

  lemma LoadHeadTried(s: State, g: Aux, t: Thread, weak: bool)
    requires Ends(s, g) && t in s.threads && s.threads[t].pc == DLoadHead
    ensures TriedTo(s, g, t, weak, LoadHead(s, t))
  {
  }

  lemma ProtectHeadTried(s: State, g: Aux, t: Thread, weak: bool)
    requires Ends(s, g) && t in s.threads && s.threads[t].pc == DProtectHead
    ensures TriedTo(s, g, t, weak, ProtectHead(s, t))
  {
  }

  lemma ValidateHeadTried(s: State, g: Aux, t: Thread, weak: bool)
    requires Ends(s, g) && t in s.threads && s.threads[t].pc == DValidate
    ensures TriedTo(s, g, t, weak, ValidateHead(s, t))
  {
  }

  lemma ReadTailTried(s: State, g: Aux, t: Thread, weak: bool)
    requires Ends(s, g) && t in s.threads && s.threads[t].pc == DLoadTail
    ensures TriedTo(s, g, t, weak, ReadTail(s, t))
  {
  }

  lemma LoadHeadNextTried(s: State, g: Aux, t: Thread, weak: bool)
    requires Ends(s, g) && t in s.threads && s.threads[t].pc == DLoadNext && s.threads[t].head in s.next
    ensures TriedTo(s, g, t, weak, LoadHeadNext(s, t))
  {
  }

  lemma ProtectNextTried(s: State, g: Aux, t: Thread, weak: bool)
    requires Ends(s, g) && t in s.threads && s.threads[t].pc == DProtectNext
    ensures TriedTo(s, g, t, weak, ProtectNext(s, t))
  {
  }

  lemma VerifyNextTried(s: State, g: Aux, t: Thread, weak: bool)
    requires Ends(s, g) && t in s.threads && s.threads[t].pc == DVerifyNext && s.threads[t].head in s.next
    ensures TriedTo(s, g, t, weak, VerifyNext(s, t))
  {
  }

  lemma RecheckHeadTried(s: State, g: Aux, t: Thread, weak: bool)
    requires Ends(s, g) && t in s.threads && s.threads[t].pc == DRecheck
    ensures TriedTo(s, g, t, weak, RecheckHead(s, t))
  {
  }

  lemma HelpDequeueTried(s: State, g: Aux, t: Thread, weak: bool)
    requires Ends(s, g) && t in s.threads && s.threads[t].pc == DHelp
    ensures TriedTo(s, g, t, weak, HelpDequeue(s, t, weak))
  {
  }

  lemma SwingHeadTried(s: State, g: Aux, t: Thread, weak: bool)
    requires Ends(s, g) && t in s.threads && s.threads[t].pc == DSwing
    ensures TriedTo(s, g, t, weak, SwingHead(s, t, weak))
  {
  }

  /** After its attempts a call does not go back to them. */
  lemma AfterwardsTried(s: State, g: Aux, t: Thread, weak: bool, l': Local, s': State)
    requires t in s.threads && !InLoop(s.threads[t].pc) && !Claiming(s.threads[t].pc)
    requires t in s'.threads && s'.threads[t] == l' && !InLoop(l'.pc) && !Claiming(l'.pc)
    requires Tries(l') <= Tries(s.threads[t])
    ensures TriedTo(s, g, t, weak, s')
  {
    hide Tries, Fresh;
  }

  lemma EnqueueAfterwards(s: State, t: Thread, weak: bool, link: Node)
    requires t in s.threads && s.threads[t].pc in {ESwing, ECount, EGiveUp, ERelease}
    requires Derefs(s.threads[t]) <= s.next.Keys
    ensures var s' := EnqueueStep(s, t, weak, link);
            && t in s'.threads && !InLoop(s'.threads[t].pc) && !Claiming(s'.threads[t].pc)
            && Tries(s'.threads[t]) <= Tries(s.threads[t])
  {
    hide LoadTail, ProtectTail, ValidateTail, LoadTailNext, RecheckTail, Link, HelpEnqueue;
  }

  lemma DequeueAfterwards(s: State, t: Thread, weak: bool)
    requires t in s.threads && s.threads[t].pc in {DTake, DRetire, DCount, DReleaseNext, DReleaseHead}
    requires Derefs(s.threads[t]) <= s.next.Keys
    ensures var s' := DequeueStep(s, t, weak);
            && t in s'.threads && !InLoop(s'.threads[t].pc) && !Claiming(s'.threads[t].pc)
            && Tries(s'.threads[t]) <= Tries(s.threads[t])
  {
    hide LoadHead, ProtectHead, ValidateHead, ReadTail, LoadHeadNext, ProtectNext, VerifyNext,
      RecheckHead, HelpDequeue, SwingHead, Take, Retire, CountDown, ReleaseNext, ReleaseHead;
    if s.threads[t].pc in {DTake, DRetire, DCount} {
      DeliveryAfterwards(s, t);
    } else {
      ReleaseAfterwards(s, t);
    }
  }

  lemma DeliveryAfterwards(s: State, t: Thread)
    requires t in s.threads && s.threads[t].pc in {DTake, DRetire, DCount} && Derefs(s.threads[t]) <= s.next.Keys
    ensures s.threads[t].pc == DTake ==> Settles(s, t, Take(s, t))
    ensures s.threads[t].pc == DRetire ==> Settles(s, t, Retire(s, t))
    ensures s.threads[t].pc == DCount ==> Settles(s, t, CountDown(s, t))
  {
    hide Threshold;
  }

  lemma ReleasedThreads(s: State, t: Thread)
    requires t in s.threads
    ensures t in ReleaseNext(s, t).threads && ReleaseNext(s, t).threads[t] == s.threads[t].(pc := DReleaseHead)
    ensures t in ReleaseHead(s, t).threads && ReleaseHead(s, t).threads[t] == s.threads[t].(pc := Idle)
  {
  }

  lemma ReleaseAfterwards(s: State, t: Thread)
    requires t in s.threads && s.threads[t].pc in {DReleaseNext, DReleaseHead}
    ensures s.threads[t].pc == DReleaseNext ==> Settles(s, t, ReleaseNext(s, t))
    ensures s.threads[t].pc == DReleaseHead ==> Settles(s, t, ReleaseHead(s, t))
  {
    hide ReleaseNext, ReleaseHead;
    ReleasedThreads(s, t);
  }

  /** The call stays outside its attempts and counts no further one. */
  ghost predicate Settles(s: State, t: Thread, s': State)
    requires t in s.threads
  {
    && t in s'.threads && !InLoop(s'.threads[t].pc) && !Claiming(s'.threads[t].pc)
    && Tries(s'.threads[t]) <= Tries(s.threads[t])
  }

  lemma EnqueueTried(s: State, g: Aux, t: Thread, weak: bool, link: Node)
    requires Ends(s, g) && t in s.threads && Derefs(s.threads[t]) <= s.next.Keys && InEnqueue(s.threads[t].pc)
    requires !Claiming(s.threads[t].pc)
    ensures TriedTo(s, g, t, weak, EnqueueStep(s, t, weak, link))
  {
    if s.threads[t].pc in {ESwing, ECount, EGiveUp, ERelease} {
      EnqueueAfterwards(s, t, weak, link);
      AfterwardsTried(s, g, t, weak, EnqueueStep(s, t, weak, link).threads[t], EnqueueStep(s, t, weak, link));
      hide *;
    } else {
      hide TriedTo, Ends, LoadTail, ProtectTail, ValidateTail, LoadTailNext, RecheckTail, Link, HelpEnqueue;
      match s.threads[t].pc
      case ELoadTail => LoadTailTried(s, g, t, weak);
      case EProtect => ProtectTailTried(s, g, t, weak);
      case EValidate => ValidateTailTried(s, g, t, weak);
      case ELoadNext => LoadTailNextTried(s, g, t, weak);
      case ERecheck => RecheckTailTried(s, g, t, weak);
      case ELink => LinkTried(s, g, t, weak);
      case EHelp => HelpEnqueueTried(s, g, t, weak);
    }
  }

  lemma DequeueTried(s: State, g: Aux, t: Thread, weak: bool)
    requires Ends(s, g) && t in s.threads && Derefs(s.threads[t]) <= s.next.Keys && InDequeue(s.threads[t].pc)
    requires !Claiming(s.threads[t].pc) && !Collecting(s.threads[t].pc)
    ensures TriedTo(s, g, t, weak, DequeueStep(s, t, weak))
  {
    if s.threads[t].pc in {DTake, DRetire, DCount, DReleaseNext, DReleaseHead} {
      DequeueAfterwards(s, t, weak);
      AfterwardsTried(s, g, t, weak, DequeueStep(s, t, weak).threads[t], DequeueStep(s, t, weak));
      hide *;
    } else {
      hide TriedTo, Ends, LoadHead, ProtectHead, ValidateHead, ReadTail, LoadHeadNext, ProtectNext, VerifyNext,
        RecheckHead, HelpDequeue, SwingHead;
      match s.threads[t].pc
      case DLoadHead => LoadHeadTried(s, g, t, weak);
      case DProtectHead => ProtectHeadTried(s, g, t, weak);
      case DValidate => ValidateHeadTried(s, g, t, weak);
      case DLoadTail => ReadTailTried(s, g, t, weak);
      case DLoadNext => LoadHeadNextTried(s, g, t, weak);
      case DProtectNext => ProtectNextTried(s, g, t, weak);
      case DVerifyNext => VerifyNextTried(s, g, t, weak);
      case DRecheck => RecheckHeadTried(s, g, t, weak);
      case DHelp => HelpDequeueTried(s, g, t, weak);
      case DSwing => SwingHeadTried(s, g, t, weak);
    }
  }

  // ---------------------------------------------------------------- the count of successes

  /** Links and swings so far. */
  function Ticks(g: Aux): nat {
    |g.hist| + g.headPos + g.tailPos
  }

  /** The history moves at a success and only then. */
  lemma TicksStep(s: State, g: Aux, a: Action)
    requires Inv(s, g) && Enabled(s, a)
    ensures Ticks(AuxAfter(s, g, a)) == Ticks(g) + if Advances(s, a) then 1 else 0
    ensures !Advances(s, a) ==>
              var g' := AuxAfter(s, g, a); g'.hist == g.hist && g'.headPos == g.headPos && g'.tailPos == g.tailPos
  {
    hide Inv;
    if a.Run? {
      if s.threads[a.t].pc == DSwing && s.head == s.threads[a.t].head {
        SwingHeadKeeps(s, g, a.t);
      }
      RunTicks(s, g, a.t, a.weak, a.link);
    }
    hide AuxRun, Advances;
  }

  lemma RunTicks(s: State, g: Aux, t: Thread, weak: bool, link: Node)
    requires t in s.threads && Derefs(s.threads[t]) <= s.next.Keys
    requires s.threads[t].pc == DSwing && s.head == s.threads[t].head ==> g.headPos + 1 < |g.jobs|
    ensures Ticks(AuxRun(s, g, t, weak)) == Ticks(g) + if Advances(s, Run(t, weak, link)) then 1 else 0
    ensures !Advances(s, Run(t, weak, link)) ==>
              var g' := AuxRun(s, g, t, weak); g'.hist == g.hist && g'.headPos == g.headPos && g'.tailPos == g.tailPos
  {
  }

  // ---------------------------------------------------------------- runs

  ghost function TicksAt(states: seq<State>, actions: seq<Action>, dummy: Node, i: nat): nat
    requires IsRun(states, actions, dummy) && i <= |actions|
  {
    Ticks(AuxAt(states, actions, dummy, i))
  }

  /** The successes, by whomever, between the states `i` and `j`. */
  ghost function Successes(states: seq<State>, actions: seq<Action>, i: nat, j: nat): nat
    requires i <= j <= |actions| < |states|
    decreases j
  {
    if i == j then 0
    else Successes(states, actions, i, j - 1) + if Advances(states[j - 1], actions[j - 1]) then 1 else 0
  }

  /** The spurious failures of `t` between the states `i` and `j`. */
  ghost function Failures(states: seq<State>, actions: seq<Action>, t: Thread, i: nat, j: nat): nat
    requires i <= j <= |actions| < |states|
    decreases j
  {
    if i == j then 0
    else
      Failures(states, actions, t, i, j - 1)
      + if Actor(states[j - 1], actions[j - 1]) == Some(t) && Spurious(states[j - 1], actions[j - 1]) then 1 else 0
  }

  lemma {:induction false} TicksCount(states: seq<State>, actions: seq<Action>, dummy: Node, i: nat, j: nat)
    requires IsRun(states, actions, dummy) && i <= j <= |actions|
    ensures TicksAt(states, actions, dummy, j) == TicksAt(states, actions, dummy, i) + Successes(states, actions, i, j)
    decreases j
  {
    hide Inv, Enabled, After, AuxAfter, Advances, Ticks;
    if i < j {
      var k := j - 1;
      TicksCount(states, actions, dummy, i, k);
      RunInv(states, actions, dummy, k);
      assert Enabled(states[k], actions[k]);
      TicksStep(states[k], AuxAt(states, actions, dummy, k), actions[k]);
    }
  }

  /** Where the attempt that `t` is in at state `i` began. */
  ghost function Top(states: seq<State>, t: Thread, i: nat): (b: nat)
    requires i < |states|
    ensures b <= i
  {
    if i == 0 || t !in states[i].threads || AtTop(states[i].threads[t].pc) then i else Top(states, t, i - 1)
  }

  /** A step of its own, of any kind, of a call that does not end with it. */
  lemma OwnTried(s: State, g: Aux, a: Action, t: Thread)
    requires Inv(s, g) && Enabled(s, a) && Actor(s, a) == Some(t) && t in s.threads && s.threads[t].pc != Idle
    requires t in After(s, a).threads && After(s, a).threads[t].pc != Idle
    ensures Tried(s, g, a, s.threads[t], After(s, a).threads[t])
  {
    hide Inv, EnqueueStep, DequeueStep, Derefs, Ends, Fresh, Tries;
    EndsAre(s, g);
    if a.Run? {
      if InEnqueue(s.threads[t].pc) {
        EnqueueTried(s, g, t, a.weak, a.link);
      } else {
        DequeueTried(s, g, t, a.weak);
      }
      SameCauses(s, t, a.weak, a.link);
    } else if a.Claim? {
      ClaimTried(s, g, t, a.record);
    } else {
      CollectTried(s, g, a, t);
    }
  }

  /** The causes do not depend on the link a node gets in the pool. */
  lemma SameCauses(s: State, t: Thread, weak: bool, link: Node)
    ensures Advances(s, Run(t, weak, NULL)) == Advances(s, Run(t, weak, link))
    ensures Spurious(s, Run(t, weak, NULL)) == Spurious(s, Run(t, weak, link))
  {
  }

  lemma ClaimTried(s: State, g: Aux, t: Thread, r: nat)
    requires Enabled(s, Claim(t, r))
    ensures Tried(s, g, Claim(t, r), s.threads[t], After(s, Claim(t, r)).threads[t])
  {
    hide Fresh;
  }

  lemma CollectTried(s: State, g: Aux, a: Action, t: Thread)
    requires Enabled(s, a) && Actor(s, a) == Some(t) && t in s.threads && s.threads[t].pc != Idle
    requires a.ScanStart? || a.ScanRead? || a.ScanReclaim? || a.ScanEnd?
    requires t in After(s, a).threads
    ensures Tried(s, g, a, s.threads[t], After(s, a).threads[t])
  {
    hide Fresh, EnqueueStep, DequeueStep, Derefs;
  }

  // ---------------------------------------------------------------- attempts over a run

  lemma FreshTop(s: State, g: Aux, l: Local)
    requires Inv(s, g) && AtTop(l.pc)
    ensures Fresh(g, l)
  {
    ChainParts(s, g);
  }

  lemma SameFresh(g: Aux, g': Aux, l: Local)
    requires Fresh(g, l) && g'.hist == g.hist && g'.headPos == g.headPos && g'.tailPos == g.tailPos
    ensures Fresh(g', l)
  {
  }

  /** An attempt during which nobody succeeded has nothing stale. */
  lemma {:induction false} QuietIsFresh(states: seq<State>, actions: seq<Action>, dummy: Node, i: nat, t: Thread)
    requires IsRun(states, actions, dummy) && i <= |actions|
    requires t in states[i].threads && InLoop(states[i].threads[t].pc)
    requires TicksAt(states, actions, dummy, i) == TicksAt(states, actions, dummy, Top(states, t, i))
    ensures Fresh(AuxAt(states, actions, dummy, i), states[i].threads[t])
  {
    hide Inv, Enabled, After, AuxAfter, Advances, Ticks, Fresh, InLoop, AtTop, Tries, Spurious;
    RunInv(states, actions, dummy, i);
    var g := AuxAt(states, actions, dummy, i);
    if AtTop(states[i].threads[t].pc) {
      FreshTop(states[i], g, states[i].threads[t]);
    } else if i == 0 {
      NotInLoop(states[0], dummy, t);
    } else {
      var k := i - 1;
      var s0, g0, a := states[k], AuxAt(states, actions, dummy, k), actions[k];
      assert Enabled(s0, a) && states[k + 1] == After(s0, a);
      RunInv(states, actions, dummy, k);
      CameFrom(s0, g0, a, t);
      TicksCount(states, actions, dummy, Top(states, t, k), k);
      TicksCount(states, actions, dummy, k, i);
      QuietIsFresh(states, actions, dummy, k, t);
      TicksStep(s0, g0, a);
      if Actor(s0, a) == Some(t) {
        InLoopNotIdle(states[i].threads[t].pc);
        InLoopNotIdle(s0.threads[t].pc);
        OwnTried(s0, g0, a, t);
        SameFresh(g0, g, states[i].threads[t]);
      } else {
        OthersStay(s0, a, t);
        SameFresh(g0, g, states[i].threads[t]);
      }
    }
  }

  lemma NotInLoop(s: State, dummy: Node, t: Thread)
    requires Init(s, dummy) && t in s.threads
    ensures !InLoop(s.threads[t].pc)
  {
  }

  lemma InLoopNotIdle(pc: Pc)
    requires InLoop(pc)
    ensures pc != Idle
  {
  }

  /** A thread inside an attempt, not at its top, was in it before. */
  lemma CameFrom(s: State, g: Aux, a: Action, t: Thread)
    requires Inv(s, g) && Enabled(s, a) && t in After(s, a).threads
    requires InLoop(After(s, a).threads[t].pc) && !AtTop(After(s, a).threads[t].pc)
    ensures t in s.threads && InLoop(s.threads[t].pc)
  {
    hide Inv, After, AtTop, InLoop, Tries, Fresh, Advances, Spurious;
    if Actor(s, a) != Some(t) {
      OthersStay(s, a, t);
    } else {
      InLoopNotIdle(After(s, a).threads[t].pc);
      ActorIsThread(s, a, t);
      StartsOutside(s, a, t);
      OwnTried(s, g, a, t);
    }
  }

  lemma ActorIsThread(s: State, a: Action, t: Thread)
    requires Enabled(s, a) && Actor(s, a) == Some(t) && t in After(s, a).threads
    ensures t in s.threads
  {
    if a.ScanRead? || a.ScanReclaim? || a.ScanEnd? {
      hide EnqueueStep, DequeueStep, Derefs;
    }
  }

  lemma StartsOutside(s: State, a: Action, t: Thread)
    requires Enabled(s, a) && Actor(s, a) == Some(t) && t in s.threads
    requires t in After(s, a).threads && InLoop(After(s, a).threads[t].pc) && !AtTop(After(s, a).threads[t].pc)
    ensures s.threads[t].pc != Idle
  {
    hide EnqueueStep, DequeueStep, Derefs;
  }

  /** The state from which the successes are still to be charged: the top of the attempt, or now. */
  ghost function Since(states: seq<State>, t: Thread, i: nat): (b: nat)
    requires i < |states|
    ensures b <= i
  {
    if t in states[i].threads && InLoop(states[i].threads[t].pc) then Top(states, t, i) else i
  }

  /** The thread has been inside one call from state `c` to state `i`. */
  ghost predicate Calling(states: seq<State>, t: Thread, c: nat, i: nat)
    requires c <= i < |states|
  {
    forall k :: c <= k <= i ==> t in states[k].threads && states[k].threads[t].pc != Idle
  }

  /** A step of the call that does not fail an attempt. */
  lemma SinceGrows(states: seq<State>, actions: seq<Action>, dummy: Node, i: nat, t: Thread)
    requires IsRun(states, actions, dummy) && i < |actions|
    requires t in states[i].threads && t in states[i + 1].threads
    requires var pc := states[i + 1].threads[t].pc; InLoop(pc) && !AtTop(pc) ==> InLoop(states[i].threads[t].pc)
    ensures TicksAt(states, actions, dummy, Since(states, t, i))
            <= TicksAt(states, actions, dummy, Since(states, t, i + 1))
  {
    hide Inv, Enabled, After, AuxAfter, Ticks, InLoop, AtTop;
    if Since(states, t, i + 1) == i + 1 {
      TicksCount(states, actions, dummy, Since(states, t, i), i + 1);
    }
  }

  /** A failed attempt has its cause within it. */
  lemma FailedAttempt(states: seq<State>, actions: seq<Action>, dummy: Node, i: nat, t: Thread)
    requires IsRun(states, actions, dummy) && i < |actions| && Actor(states[i], actions[i]) == Some(t)
    requires t in states[i].threads && t in states[i + 1].threads
    requires states[i].threads[t].pc != Idle && states[i + 1].threads[t].pc != Idle
    requires Tries(states[i + 1].threads[t]) > Tries(states[i].threads[t])
    ensures InLoop(states[i].threads[t].pc) && Since(states, t, i + 1) == i + 1
    ensures Tries(states[i + 1].threads[t]) == Tries(states[i].threads[t]) + 1
    ensures Spurious(states[i], actions[i]) || Successes(states, actions, Top(states, t, i), i + 1) > 0
  {
    hide Inv, Enabled, After, AuxAfter, Advances, Ticks, Fresh, InLoop, AtTop, Tries, Spurious;
    var s, g, a := states[i], AuxAt(states, actions, dummy, i), actions[i];
    assert Enabled(s, a) && states[i + 1] == After(s, a);
    RunInv(states, actions, dummy, i);
    OwnTried(s, g, a, t);
    var b := Top(states, t, i);
    TicksCount(states, actions, dummy, b, i);
    if Successes(states, actions, b, i + 1) == 0 {
      QuietIsFresh(states, actions, dummy, i, t);
    }
  }

  /** What one step adds to the failed attempts and to the successes still to be charged. */
  lemma StepPays(states: seq<State>, actions: seq<Action>, dummy: Node, k: nat, t: Thread)
    requires IsRun(states, actions, dummy) && k < |actions|
    requires t in states[k].threads && states[k].threads[t].pc != Idle
    requires t in states[k + 1].threads && states[k + 1].threads[t].pc != Idle
    ensures Tries(states[k + 1].threads[t]) + TicksAt(states, actions, dummy, Since(states, t, k))
            <= Tries(states[k].threads[t]) + TicksAt(states, actions, dummy, Since(states, t, k + 1))
               + if Actor(states[k], actions[k]) == Some(t) && Spurious(states[k], actions[k]) then 1 else 0
  {
    hide Inv, Enabled, After, AuxAfter, Advances, Ticks, Fresh, InLoop, AtTop, Tries, Spurious, Top;
    assert Enabled(states[k], actions[k]) && states[k + 1] == After(states[k], actions[k]);
    RunInv(states, actions, dummy, k);
    if Actor(states[k], actions[k]) != Some(t) {
      OthersStay(states[k], actions[k], t);
      SinceGrows(states, actions, dummy, k, t);
    } else {
      OwnTried(states[k], AuxAt(states, actions, dummy, k), actions[k], t);
      SinceGrows(states, actions, dummy, k, t);
      if Tries(states[k + 1].threads[t]) > Tries(states[k].threads[t]) {
        FailedAttempt(states, actions, dummy, k, t);
        TicksCount(states, actions, dummy, Top(states, t, k), k + 1);
      }
    }
  }

  /** Every failed attempt of a call is paid for by a spurious failure of its own or by a success of somebody. */
  lemma {:induction false} TriesArePaid(states: seq<State>, actions: seq<Action>, dummy: Node,
                                        c: nat, i: nat, t: Thread)
    requires IsRun(states, actions, dummy) && c <= i <= |actions| && Calling(states, t, c, i)
    requires !InLoop(states[c].threads[t].pc) && Tries(states[c].threads[t]) == 0
    ensures Tries(states[i].threads[t]) + TicksAt(states, actions, dummy, c)
            <= Failures(states, actions, t, c, i) + TicksAt(states, actions, dummy, Since(states, t, i))
    decreases i
  {
    hide Inv, Enabled, After, AuxAt, Advances, Ticks, InLoop, Tries, Spurious, Top;
    if c < i {
      TriesArePaid(states, actions, dummy, c, i - 1, t);
      assert t in states[i - 1].threads && states[i - 1].threads[t].pc != Idle;
      StepPays(states, actions, dummy, i - 1, t);
    }
  }

  /**
    Lock-freedom: at any moment of a call, the attempts that have failed are no more than the
    links and swings that somebody made since it began, plus its own spurious failures.
   */
  lemma FailedAttemptsHaveCauses(states: seq<State>, actions: seq<Action>, dummy: Node, b: nat, i: nat, t: Thread)
    requires IsRun(states, actions, dummy) && b < i <= |actions| && Calling(states, t, b + 1, i)
    requires (actions[b].StartEnqueue? || actions[b].StartDequeue?) && actions[b].t == t
    ensures Tries(states[i].threads[t])
            <= Successes(states, actions, b + 1, i) + Failures(states, actions, t, b + 1, i)
  {
    hide Inv, Enabled, After, AuxAfter, Advances, Ticks, Fresh, InLoop, Tries, Spurious;
    assert Enabled(states[b], actions[b]) && states[b + 1] == After(states[b], actions[b]);
    StartsUntried(states[b], actions[b]);
    TriesArePaid(states, actions, dummy, b + 1, i, t);
    TicksCount(states, actions, dummy, Since(states, t, i), i);
    TicksCount(states, actions, dummy, b + 1, i);
  }

  lemma StartsUntried(s: State, a: Action)
    requires Enabled(s, a) && (a.StartEnqueue? || a.StartDequeue?)
    ensures var s' := After(s, a);
            a.t in s'.threads && !InLoop(s'.threads[a.t].pc) && Tries(s'.threads[a.t]) == 0
  {
  }

  /** An enqueue that answers busy had a thousand causes; a dequeue that gives up had a hundred. */
  lemma GivingUpHasCauses(states: seq<State>, actions: seq<Action>, dummy: Node, b: nat, i: nat, t: Thread)
    requires IsRun(states, actions, dummy) && b < i <= |actions| && Calling(states, t, b + 1, i)
    requires (actions[b].StartEnqueue? || actions[b].StartDequeue?) && actions[b].t == t
    ensures states[i].threads[t].pc == ERelease && states[i].threads[t].outcome == Busy ==>
              1000 <= Successes(states, actions, b + 1, i) + Failures(states, actions, t, b + 1, i)
    ensures states[i].threads[t].pc == DReleaseHead && states[i].threads[t].outcome == Exhausted ==>
              100 <= Successes(states, actions, b + 1, i) + Failures(states, actions, t, b + 1, i)
  {
    hide After, Enabled, Advances, Spurious, Tries, Successes, Failures;
    FailedAttemptsHaveCauses(states, actions, dummy, b, i, t);
    GaveUp(states[i].threads[t]);
  }

  /** An attempt whose successor changed under it reads again; only the tenth change fails it. */
  lemma InnerAttempts(s: State, t: Thread, weak: bool, link: Node)
    requires Enabled(s, Run(t, weak, link)) && s.threads[t].pc == DVerifyNext
    ensures var l, s' := s.threads[t], After(s, Run(t, weak, link));
            && t in s'.threads && s' == s.(threads := s.threads[t := s'.threads[t]])
            && (s.next[l.head] == l.next ==> s'.threads[t] == l.(pc := DRecheck))
            && (s.next[l.head] != l.next && l.inner < 9 ==> s'.threads[t] == l.(pc := DLoadNext, inner := l.inner + 1))
            && (s.next[l.head] != l.next && l.inner >= 9 && l.retry < 100 ==> Tries(s'.threads[t]) == Tries(l) + 1)
  {
    hide LoadHead, ProtectHead, ValidateHead, ReadTail, LoadHeadNext, ProtectNext, RecheckHead, HelpDequeue, SwingHead,
      Take, Retire, CountDown, ReleaseNext, ReleaseHead;
  }

  lemma GaveUp(l: Local)
    ensures l.pc == ERelease && l.outcome == Busy ==> Tries(l) == MAX_RETRIES
    ensures l.pc == DReleaseHead && l.outcome == Exhausted ==> Tries(l) == MAX_OUTER_RETRIES
  {
  }
}
