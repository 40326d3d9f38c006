/** What every run of the lock-free queue keeps. */
module LockFreeQueueTheorems {
  import opened LockFreeQueue
  import opened Wrappers
  import opened LockFreeQueueInvariant
  import opened LockFreeQueueSteps
  import opened LockFreeQueueUpdates
  import opened LockFreeQueueScan

  // ---------------------------------------------------------------- every step keeps the invariant

  lemma EnqueueStepKeeps(s: State, g: Aux, t: Thread, weak: bool, link: Node)
    requires Inv(s, g) && Enabled(s, Run(t, weak, link)) && InEnqueue(s.threads[t].pc)
    ensures Inv(EnqueueStep(s, t, weak, link), AuxRun(s, g, t, weak))
  {
    hide Inv;
    match s.threads[t].pc
    case ELoadTail => LoadTailKeeps(s, g, t);
    case EProtect => ProtectTailKeeps(s, g, t);
    case EValidate => ValidateTailKeeps(s, g, t);
    case ELoadNext => LoadTailNextKeeps(s, g, t);
    case ERecheck => RecheckTailKeeps(s, g, t);
    case ELink =>
      if s.next[s.threads[t].tail] == NULL && !weak {
        LinkKeeps(s, g, t);
      } else {
        RetryEnqueueKeeps(s, g, t);
      }
    case EHelp => HelpEnqueueKeeps(s, g, t, weak);
    case ESwing => SwingToLinkedKeeps(s, g, t, weak);
    case ECount => CountUpKeeps(s, g, t);
    case EGiveUp => GiveUpKeeps(s, g, t, link);
    case ERelease => ReleaseTailKeeps(s, g, t);
  }

  lemma DequeueStepKeeps(s: State, g: Aux, t: Thread, weak: bool, link: Node)
    requires Inv(s, g) && Enabled(s, Run(t, weak, link)) && !InEnqueue(s.threads[t].pc)
    ensures Inv(DequeueStep(s, t, weak), AuxRun(s, g, t, weak))
  {
    hide Inv;
    match s.threads[t].pc
    case DLoadHead => LoadHeadKeeps(s, g, t);
    case DProtectHead => ProtectHeadKeeps(s, g, t);
    case DValidate => ValidateHeadKeeps(s, g, t);
    case DLoadTail => ReadTailKeeps(s, g, t);
    case DLoadNext => LoadHeadNextKeeps(s, g, t);
    case DProtectNext => ProtectNextKeeps(s, g, t);
    case DVerifyNext => VerifyNextKeeps(s, g, t);
    case DRecheck => RecheckHeadKeeps(s, g, t);
    case DHelp => HelpDequeueKeeps(s, g, t, weak);
    case DSwing =>
      if s.head == s.threads[t].head && !weak {
        SwingHeadKeeps(s, g, t);
      } else {
        RetryDequeueKeeps(s, g, t);
      }
    case DTake => TakeKeeps(s, g, t);
    case DRetire => RetireKeeps(s, g, t);
    case DCount => CountDownKeeps(s, g, t);
    case DReleaseNext => ReleaseNextKeeps(s, g, t);
    case DReleaseHead => ReleaseHeadKeeps(s, g, t);
  }

  lemma StepKeeps(s: State, g: Aux, a: Action)
    requires Inv(s, g) && Enabled(s, a)
    ensures Inv(After(s, a), AuxAfter(s, g, a))
  {
    hide Inv, EnqueueStep, DequeueStep, AuxRun;
    match a
    case StartEnqueue(t, job, n) =>
      if job.Some? {
        StartEnqueueKeeps(s, g, t, job.value, n);
      } else {
        StartNullKeeps(s, g, t);
      }
    case StartDequeue(t) => StartDequeueKeeps(s, g, t);
    case Claim(t, r) => ClaimKeeps(s, g, t, r);
    case Run(t, weak, link) =>
      if InEnqueue(s.threads[t].pc) {
        EnqueueStepKeeps(s, g, t, weak, link);
      } else {
        DequeueStepKeeps(s, g, t, weak, link);
      }
    case ScanStart(who) => ScanStartKeeps(s, g, who);
    case ScanRead => ReadRecordKeeps(s, g);
    case ScanReclaim(n, link) => ReclaimKeeps(s, g, n, link);
    case ScanEnd => ScanEndKeeps(s, g);
  }

  // ---------------------------------------------------------------- the contents of a state

  /** `ns` is the list of nodes from `n` to the null pointer. */
  ghost predicate ListFrom(next: map<Node, Node>, n: Node, ns: seq<Node>) {
    && |ns| > 0 && ns[0] == n
    && (forall i :: 0 <= i < |ns| ==> ns[i] in next)
    && (forall i {:trigger ns[i]} :: 0 < i < |ns| ==> next[ns[i - 1]] == ns[i] && ns[i] != NULL)
    && next[ns[|ns| - 1]] == NULL
  }

  lemma ListTail(next: map<Node, Node>, n: Node, ns: seq<Node>)
    requires ListFrom(next, n, ns) && |ns| > 1
    ensures ListFrom(next, ns[1], ns[1..])
  {
    var ms := ns[1..];
    forall i | 0 < i < |ms|
      ensures next[ms[i - 1]] == ms[i] && ms[i] != NULL
    {
      assert ns[i + 1] == ms[i];
    }
  }

  lemma {:induction false} ListUnique(next: map<Node, Node>, n: Node, ns: seq<Node>, ms: seq<Node>)
    requires ListFrom(next, n, ns) && ListFrom(next, n, ms)
    ensures ns == ms
    decreases |ns|
  {
    assert |ns| > 1 ==> next[ns[0]] == ns[1];
    assert |ms| > 1 ==> next[ms[0]] == ms[1];
    if |ns| > 1 && |ms| > 1 {
      ListTail(next, n, ns);
      ListTail(next, n, ms);
      ListUnique(next, ns[1], ns[1..], ms[1..]);
      assert ns == [ns[0]] + ns[1..] && ms == [ms[0]] + ms[1..];
    }
  }

  ghost function JobsOf(data: map<Node, Option<Job>>, ns: seq<Node>): seq<Job> {
    seq(|ns|, i requires 0 <= i < |ns| =>
      if ns[i] in data && data[ns[i]].Some? then data[ns[i]].value else 0)
  }

  /** The jobs in the nodes behind the dummy, in the order of the links. */
  ghost function Contents(s: State): seq<Job> {
    if exists ns :: ListFrom(s.next, s.head, ns)
    then var ns :| ListFrom(s.next, s.head, ns); JobsOf(s.data, ns[1..])
    else []
  }

  /** The nodes from `head` are exactly the linked ones, and `tail` is the last or second last. */
  lemma LinkedList(s: State, g: Aux)
    requires Inv(s, g)
    ensures var ns := g.hist[g.headPos..];
            && ListFrom(s.next, s.head, ns)
            && (s.tail == ns[|ns| - 1] || (|ns| >= 2 && s.tail == ns[|ns| - 2]))
  {
    ChainParts(s, g);
    var ns := g.hist[g.headPos..];
    forall i | 0 <= i < |ns|
      ensures ns[i] in s.next && ns[i] != NULL
      ensures 0 < i ==> s.next[ns[i - 1]] == ns[i]
      ensures i == |ns| - 1 ==> s.next[ns[i]] == NULL
    {
      ListedNode(s, g, g.headPos + i);
      if 0 < i {
        ListedNode(s, g, g.headPos + i - 1);
      }
    }
  }

  lemma ListedNode(s: State, g: Aux, i: nat)
    requires ChainOk(s, g) && g.headPos <= i < |g.hist|
    ensures g.hist[i] in s.next && g.hist[i] != NULL
    ensures s.next[g.hist[i]] == if i + 1 < |g.hist| then g.hist[i + 1] else NULL
  {
    hide DataOk;
    assert g.pos[g.hist[i]] == i;
    LiveNode(s, g, g.hist[i]);
  }

  lemma ContentsAre(s: State, g: Aux)
    requires Inv(s, g)
    ensures g.headPos < |g.jobs| && Contents(s) == Queue(g)
  {
    LinkedList(s, g);
    ChainParts(s, g);
    hide Inv;
    var ms := g.hist[g.headPos..];
    assert exists ns :: ListFrom(s.next, s.head, ns);
    var ns :| ListFrom(s.next, s.head, ns) && Contents(s) == JobsOf(s.data, ns[1..]);
    ListUnique(s.next, s.head, ns, ms);
    QueuedJobs(s, g);
  }

  lemma QueuedJobs(s: State, g: Aux)
    requires ChainOk(s, g) && |g.hist| == |g.jobs| && g.headPos < |g.hist|
    ensures JobsOf(s.data, g.hist[g.headPos..][1..]) == Queue(g)
  {
    hide PosOk, NextOk;
    assert g.hist[g.headPos..][1..] == g.hist[g.headPos + 1..];
    forall i | 0 <= i < |Queue(g)|
      ensures JobsOf(s.data, g.hist[g.headPos + 1..])[i] == Queue(g)[i]
    {
      assert s.data[g.hist[g.headPos + 1 + i]] == Some(g.jobs[g.headPos + 1 + i]);
    }
  }

  // ---------------------------------------------------------------- refinement of a FIFO queue

  datatype Effect = Keep | Append(job: Job) | RemoveFirst

  /** Which steps take effect on the queue: a successful link and a successful swing of `head`. */
  function EffectOf(s: State, a: Action): Effect
    requires Enabled(s, a)
  {
    if a.Run? && s.threads[a.t].pc == ELink && s.next[s.threads[a.t].tail] == NULL && !a.weak
    then Append(s.threads[a.t].job)
    else if a.Run? && s.threads[a.t].pc == DSwing && s.head == s.threads[a.t].head && !a.weak
    then RemoveFirst
    else Keep
  }

  ghost predicate FifoStep(e: Effect, q: seq<Job>, q': seq<Job>) {
    match e
    case Keep => q' == q
    case Append(job) => q' == q + [job]
    case RemoveFirst => q != [] && q' == q[1..]
  }

  lemma StepRefines(s: State, g: Aux, a: Action)
    requires Inv(s, g) && Enabled(s, a)
    ensures FifoStep(EffectOf(s, a), Contents(s), Contents(After(s, a)))
  {
    hide Inv, Contents, After, AuxAfter, EffectOf, FifoStep;
    StepKeeps(s, g, a);
    ContentsAre(s, g);
    ContentsAre(After(s, a), AuxAfter(s, g, a));
    QueueMoves(s, g, a);
  }

  lemma QueueMoves(s: State, g: Aux, a: Action)
    requires Inv(s, g) && Enabled(s, a) && g.headPos < |g.jobs|
    ensures AuxAfter(s, g, a).headPos < |AuxAfter(s, g, a).jobs|
    ensures FifoStep(EffectOf(s, a), Queue(g), Queue(AuxAfter(s, g, a)))
  {
    hide Inv, AuxAfter, Queue;
    if EffectOf(s, a).Append? {
      LinkAppends(s, g, a);
    } else if EffectOf(s, a).RemoveFirst? {
      SwingHeadKeeps(s, g, a.t);
      SwingRemoves(s, g, a);
    } else {
      QueueStays(s, g, a);
      SameQueue(g, AuxAfter(s, g, a));
    }
  }

  lemma SameQueue(g: Aux, g': Aux)
    requires g.headPos < |g.jobs| && g'.headPos == g.headPos && g'.jobs == g.jobs
    ensures Queue(g') == Queue(g)
  {
  }

  lemma LinkAppends(s: State, g: Aux, a: Action)
    requires Enabled(s, a) && EffectOf(s, a).Append? && g.headPos < |g.jobs|
    ensures AuxAfter(s, g, a).headPos < |AuxAfter(s, g, a).jobs|
    ensures Queue(AuxAfter(s, g, a)) == Queue(g) + [EffectOf(s, a).job]
  {
    var g' := AuxLink(g, s.threads[a.t]);
    assert Queue(g') == Queue(g) + [s.threads[a.t].job];
  }

  lemma SwingRemoves(s: State, g: Aux, a: Action)
    requires Enabled(s, a) && EffectOf(s, a).RemoveFirst? && g.headPos + 1 < |g.jobs|
    ensures AuxAfter(s, g, a).headPos < |AuxAfter(s, g, a).jobs|
    ensures Queue(g) != [] && Queue(AuxAfter(s, g, a)) == Queue(g)[1..]
    ensures AuxAfter(s, g, a) == AuxSwing(g, a.t, s.threads[a.t])
  {
    assert Queue(AuxSwing(g, a.t, s.threads[a.t])) == Queue(g)[1..];
  }

  lemma QueueStays(s: State, g: Aux, a: Action)
    requires Enabled(s, a) && EffectOf(s, a).Keep?
    ensures AuxAfter(s, g, a).headPos == g.headPos && AuxAfter(s, g, a).jobs == g.jobs
  {
    if a.Run? {
      RunStays(s, g, a.t, a.weak);
    }
    hide AuxRun, Enabled;
  }

  lemma RunStays(s: State, g: Aux, t: Thread, weak: bool)
    requires t in s.threads && Derefs(s.threads[t]) <= s.next.Keys
    requires s.threads[t].pc == ELink ==> weak || s.next[s.threads[t].tail] != NULL
    requires s.threads[t].pc == DSwing ==> weak || s.head != s.threads[t].head
    ensures AuxRun(s, g, t, weak).headPos == g.headPos && AuxRun(s, g, t, weak).jobs == g.jobs
  {
    hide AuxLink, AuxSwing;
  }

  /** The job a dequeuer is recorded to have taken is the first of the queue it swung. */
  lemma SwingTakes(s: State, g: Aux, t: Thread)
    requires Inv(s, g) && t in s.threads && s.threads[t].pc == DSwing && s.head == s.threads[t].head
    ensures Contents(s) != []
    ensures t in AuxSwing(g, t, s.threads[t]).taken
    ensures AuxSwing(g, t, s.threads[t]).taken[t] == Contents(s)[0]
  {
    hide Inv, Contents;
    SwingHeadKeeps(s, g, t);
    ContentsAre(s, g);
  }

  // ---------------------------------------------------------------- no use after recycling

  /** No thread is about to touch a node that is in the pool or was never allocated. */
  lemma NoRecycledAccess(s: State, g: Aux, t: Thread)
    requires Inv(s, g) && t in s.threads
    ensures Derefs(s.threads[t]) <= s.next.Keys && Derefs(s.threads[t]) !! s.free
  {
    hide ChainOk;
    assert ThreadOk(s, g, t);
    assert Derefs(s.threads[t]) <= g.pos.Keys + g.owned.Keys by { hide PlacesOk; }
    hide ThreadOk;
  }
}
