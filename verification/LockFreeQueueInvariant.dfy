/**
  The inductive invariant of the lock-free queue, proved by rely and guarantee: every
  step re-establishes the claims of the thread that took it and keeps to a two-state
  relation under which the claims of every other thread are stable.
 */
module LockFreeQueueInvariant {
  import opened LockFreeQueue
  import opened Wrappers

  /**
    Auxiliary history of a run.  `hist` lists every node ever linked, in order, and `jobs`
    the job each carried; the queue is the part after position `headPos`.  `pos` gives the
    position of every node that is linked, unlinked or retired but not yet recycled;
    `limbo` holds the nodes a dequeuer has unlinked and not yet retired; `owned` the nodes
    an enqueuer has not linked yet; `owner` the claimed hazard records.  `taken` is the job
    a dequeuer unlinked, `sawEmpty` the dequeuers that read an empty queue.
   */
  datatype Aux = Aux(hist: seq<Node>, jobs: seq<Job>, headPos: nat, tailPos: nat,
                     pos: map<Node, nat>, limbo: map<Node, Thread>, owned: map<Node, Thread>,
                     owner: map<nat, Thread>, taken: map<Thread, Job>, sawEmpty: set<Thread>)

  /** The abstract queue. */
  function Queue(g: Aux): seq<Job>
    requires g.headPos < |g.jobs|
  {
    g.jobs[g.headPos + 1..]
  }

  /** What follows a node in the order of linking. */
  function Follower(hist: seq<Node>, pos: map<Node, nat>, n: Node): Node
    requires n in pos
  {
    if pos[n] + 1 < |hist| then hist[pos[n] + 1] else NULL
  }

  function Successor(g: Aux, n: Node): Node
    requires n in g.pos
  {
    Follower(g.hist, g.pos, n)
  }

  // ---------------------------------------------------------------- claims of a thread

  predicate HasRecord(pc: Pc) {
    pc != Idle && pc != EGuard && pc != DGuardHead
  }

  predicate HasRecord2(pc: Pc) {
    HasRecord(pc) && !InEnqueue(pc) && pc != DGuardNext && pc != DReleaseHead
  }

  predicate OwnsNode(pc: Pc) {
    pc in {EGuard, ELoadTail, EProtect, EValidate, ELoadNext, ERecheck, ELink, EHelp, EGiveUp}
  }

  /** The thread has validated its protection of its local `tail`. */
  predicate HoldsTail(pc: Pc) {
    pc in {ELoadNext, ERecheck, ELink, EHelp, ESwing}
  }

  /** The thread has validated its protection of its local `head`. */
  predicate HoldsHead(pc: Pc) {
    pc in {DLoadTail, DLoadNext, DProtectNext, DVerifyNext, DRecheck, DHelp, DSwing, DTake, DRetire}
  }

  /** The dequeuer has read `tail` and not yet swung `head`. */
  predicate KnowsTail(pc: Pc) {
    pc in {DLoadNext, DProtectNext, DVerifyNext, DRecheck, DHelp, DSwing}
  }

  /** The thread has validated its protection of its local `next`. */
  predicate HoldsNext(pc: Pc) {
    pc == DSwing || pc == DTake
  }

  predicate Holds(l: Local, n: Node) {
    || (HoldsTail(l.pc) && n == l.tail)
    || (HoldsHead(l.pc) && n == l.head)
    || (HoldsNext(l.pc) && n == l.next)
  }

  /** The thread has unlinked a job and not yet answered. */
  predicate Carries(l: Local) {
    l.pc in {DTake, DRetire, DCollect, DScan, DCount} || (l.pc in {DReleaseNext, DReleaseHead} && l.outcome.Delivered?)
  }

  ghost predicate RecordsOk(s: State, g: Aux, t: Thread, l: Local) {
    && (HasRecord(l.pc) ==>
          l.rec < |s.records| && s.records[l.rec].active && l.rec in g.owner && g.owner[l.rec] == t)
    && (HasRecord2(l.pc) ==>
          l.rec2 < |s.records| && s.records[l.rec2].active && l.rec2 in g.owner && g.owner[l.rec2] == t
          && l.rec2 != l.rec)
  }

  ghost predicate EnqueueOk(s: State, g: Aux, t: Thread, l: Local)
    requires RecordsOk(s, g, t, l)
  {
    && (OwnsNode(l.pc) ==>
          l.node in g.owned && g.owned[l.node] == t && l.node in s.next && l.node in s.data
          && s.next[l.node] == NULL && s.data[l.node] == Some(l.job))
    && (l.pc == EValidate ==> s.records[l.rec].slot == l.tail)
    && (HoldsTail(l.pc) ==>
          && s.records[l.rec].slot == l.tail
          && l.tail in g.pos && g.pos[l.tail] <= g.tailPos
          && (l.pc in {ERecheck, EHelp} && l.next != NULL ==> l.next == Successor(g, l.tail))
          && (l.pc == ELink ==> l.next == NULL)
          && (l.pc == EHelp ==> l.next != NULL)
          && (l.pc == ESwing ==> l.node != NULL && l.node == Successor(g, l.tail)))
  }

  ghost predicate DequeueOk(s: State, g: Aux, t: Thread, l: Local)
    requires RecordsOk(s, g, t, l)
  {
    && (l.pc == DValidate ==> s.records[l.rec].slot == l.head)
    && (HoldsHead(l.pc) ==>
          && s.records[l.rec].slot == l.head
          && l.head in g.pos && g.pos[l.head] <= g.headPos
          && (KnowsTail(l.pc) && g.pos[l.head] == g.headPos && l.tail != l.head ==> g.headPos < g.tailPos)
          && (l.pc in {DProtectNext, DVerifyNext, DHelp, DSwing, DTake} ==> l.next != NULL)
          && (l.pc in {DProtectNext, DVerifyNext, DRecheck, DHelp, DSwing, DTake} && l.next != NULL ==>
                l.next == Successor(g, l.head))
          && (l.pc in {DVerifyNext, DRecheck, DSwing, DTake} && l.next != NULL ==>
                s.records[l.rec2].slot == l.next)
          && (l.pc == DRecheck && l.next == NULL && g.pos[l.head] == g.headPos ==> t in g.sawEmpty)
          && (l.pc == DHelp ==> l.tail == l.head)
          && (l.pc == DSwing ==> l.tail != l.head)
          && (HoldsNext(l.pc) ==> l.next in g.pos && g.pos[l.next] == g.pos[l.head] + 1))
    && (l.pc in {DReleaseNext, DReleaseHead} && l.outcome == SawEmpty ==> t in g.sawEmpty)
    && (l.pc in {DTake, DRetire} ==>
          g.pos[l.head] < g.headPos && l.head in g.limbo && g.limbo[l.head] == t)
    && (Carries(l) ==> t in g.taken)
    && (l.pc == DTake ==> l.next in s.data && s.data[l.next] == Some(g.taken[t]))
    && (l.pc in {DRetire, DCollect, DScan, DCount} ==> l.job == g.taken[t])
    && (l.pc in {DReleaseNext, DReleaseHead} && l.outcome.Delivered? ==> l.outcome.job == g.taken[t])
  }

  /** A scan in progress has read, or will still read, the record that protects `n`. */
  ghost predicate Covered(s: State, r: nat, n: Node) {
    s.scan.Scan? && n in s.retired ==> r < s.scan.cursor || n in s.scan.hazards
  }

  ghost predicate ScanCovers(s: State, l: Local) {
    && (HoldsTail(l.pc) ==> Covered(s, l.rec, l.tail))
    && (HoldsHead(l.pc) ==> Covered(s, l.rec, l.head))
    && (HoldsNext(l.pc) ==> Covered(s, l.rec2, l.next))
  }

  ghost predicate ThreadOk(s: State, g: Aux, t: Thread)
    requires t in s.threads
  {
    var l := s.threads[t];
    && RecordsOk(s, g, t, l)
    && EnqueueOk(s, g, t, l)
    && DequeueOk(s, g, t, l)
    && ScanCovers(s, l)
  }

  // ---------------------------------------------------------------- claims of the heap

  /** `pos` inverts `hist` on the nodes that are live, and every node from `headPos` on is live. */
  ghost predicate PosOk(hist: seq<Node>, pos: map<Node, nat>, headPos: nat) {
    && (forall n {:trigger pos[n]} :: n in pos ==> pos[n] < |hist| && hist[pos[n]] == n)
    && (forall i {:trigger hist[i]} :: headPos <= i < |hist| ==> hist[i] in pos && pos[hist[i]] == i)
    && (forall i {:trigger hist[i]} :: 0 <= i < |hist| ==> hist[i] != NULL)
  }

  /** Live nodes point to the node linked after them. */
  ghost predicate NextOk(next: map<Node, Node>, hist: seq<Node>, pos: map<Node, nat>) {
    && pos.Keys <= next.Keys
    && forall n {:trigger next[n]} :: n in pos ==> next[n] == Follower(hist, pos, n)
  }

  /** Nodes behind the dummy carry their jobs. */
  ghost predicate DataOk(data: map<Node, Option<Job>>, hist: seq<Node>, jobs: seq<Job>, headPos: nat) {
    && |hist| == |jobs|
    && forall i {:trigger jobs[i]} {:trigger hist[i]} :: headPos < i < |hist| ==>
         hist[i] in data && data[hist[i]] == Some(jobs[i])
  }

  /** The chain from `head` to the last node, with `tail` at or just before its end. */
  ghost predicate ChainOk(s: State, g: Aux) {
    && g.headPos <= g.tailPos < |g.hist| <= g.tailPos + 2
    && s.head == g.hist[g.headPos] && s.tail == g.hist[g.tailPos]
    && PosOk(g.hist, g.pos, g.headPos)
    && NextOk(s.next, g.hist, g.pos)
    && DataOk(s.data, g.hist, g.jobs, g.headPos)
  }

  /** Every allocated node is in exactly one place. */
  ghost predicate PlacesOk(s: State, g: Aux) {
    && NULL !in s.next && s.next.Keys == s.data.Keys
    && s.next.Keys == g.pos.Keys + s.free + g.owned.Keys
    && g.pos.Keys !! s.free !! g.owned.Keys
    && s.retired !! g.limbo.Keys
    && (forall n :: n in g.pos && g.pos[n] < g.headPos <==> n in s.retired || n in g.limbo)
    && (forall n :: n in g.limbo ==>
          g.limbo[n] in s.threads && s.threads[g.limbo[n]].pc in {DTake, DRetire}
          && s.threads[g.limbo[n]].head == n)
    && (forall n :: n in g.owned ==>
          g.owned[n] in s.threads && OwnsNode(s.threads[g.owned[n]].pc)
          && s.threads[g.owned[n]].node == n)
    && (forall r :: r in g.owner ==> r < |s.records| && s.records[r].active)
    && (s.scan.Scan? ==> s.scan.cursor <= |s.records|)
  }

  ghost predicate Inv(s: State, g: Aux) {
    && ChainOk(s, g)
    && PlacesOk(s, g)
    && forall t :: t in s.threads ==> ThreadOk(s, g, t)
  }

  // ---------------------------------------------------------------- the auxiliary step

  function InitAux(dummy: Node): Aux {
    Aux([dummy], [0], 0, 0, map[dummy := 0], map[], map[], map[], map[], {})
  }

  function AuxAfter(s: State, g: Aux, a: Action): Aux
    requires Enabled(s, a)
  {
    match a
    case StartEnqueue(t, job, n) => if job.None? then g else g.(owned := g.owned[n := t])
    case StartDequeue(t) => g.(sawEmpty := g.sawEmpty - {t})
    case Claim(t, r) => g.(owner := g.owner[r := t])
    case Run(t, weak, link) => AuxRun(s, g, t, weak)
    case ScanStart(who) => g
    case ScanRead => g
    case ScanReclaim(n, link) => g.(pos := g.pos - {n})
    case ScanEnd => g
  }

  function AuxRun(s: State, g: Aux, t: Thread, weak: bool): Aux
    requires t in s.threads && Derefs(s.threads[t]) <= s.next.Keys
  {
    var l := s.threads[t];
    match l.pc
    case ELink => if s.next[l.tail] == NULL && !weak then AuxLink(g, l) else g
    case EHelp => AuxTail(s, g, l.tail, weak)
    case ESwing => AuxTail(s, g, l.tail, weak)
    case EGiveUp => g.(owned := g.owned - {l.node})
    case DLoadNext => AuxEmpty(g, t)
    case DHelp => AuxTail(s, g, l.tail, weak)
    case DSwing => if s.head == l.head && !weak then AuxSwing(g, t, l) else g
    case DRetire => g.(limbo := g.limbo - {l.head})
    case DReleaseNext => g.(owner := g.owner - {l.rec2})
    case DReleaseHead => g.(owner := g.owner - {l.rec})
    case ERelease => g.(owner := g.owner - {l.rec})
    case _ => g
  }

  function AuxLink(g: Aux, l: Local): Aux {
    g.(hist := g.hist + [l.node], jobs := g.jobs + [l.job],
       pos := g.pos[l.node := |g.hist|], owned := g.owned - {l.node})
  }

  function AuxTail(s: State, g: Aux, from: Node, weak: bool): Aux {
    if s.tail == from && !weak then g.(tailPos := g.tailPos + 1) else g
  }

  function AuxEmpty(g: Aux, t: Thread): Aux {
    if g.headPos + 1 == |g.hist| then g.(sawEmpty := g.sawEmpty + {t}) else g
  }

  function AuxSwing(g: Aux, t: Thread, l: Local): Aux {
    if g.headPos + 1 < |g.jobs|
    then g.(headPos := g.headPos + 1, limbo := g.limbo[l.head := t],
            taken := g.taken[t := g.jobs[g.headPos + 1]])
    else g
  }

  // ---------------------------------------------------------------- stability

  /** What a step of any other thread, or of a scan, leaves alone for thread `u`. */
  ghost predicate Rely(s: State, g: Aux, s': State, g': Aux, u: Thread)
    requires u in s.threads
  {
    var l := s.threads[u];
    && u in s'.threads && s'.threads[u] == l
    && |s.records| <= |s'.records|
    && (forall r :: 0 <= r < |s.records| && r in g.owner && g.owner[r] == u ==>
          r in g'.owner && g'.owner[r] == u && s'.records[r] == s.records[r])
    && (forall n :: n in g.owned && g.owned[n] == u && n in s.next && n in s.data ==>
          && n in g'.owned && g'.owned[n] == u && n in s'.next && s'.next[n] == s.next[n]
          && n in s'.data && s'.data[n] == s.data[n])
    && |g.hist| <= |g'.hist| && g'.hist[..|g.hist|] == g.hist
    && g.headPos <= g'.headPos && g.tailPos <= g'.tailPos
    && (forall n :: n in g.pos && Holds(l, n) ==> n in g'.pos && g'.pos[n] == g.pos[n])
    && (forall n :: n in g.limbo && g.limbo[n] == u ==> n in g'.limbo && g'.limbo[n] == u)
    && (u in g.sawEmpty ==> u in g'.sawEmpty)
    && (u in g.taken ==> u in g'.taken && g'.taken[u] == g.taken[u])
    && (l.pc == DTake && l.next in s.data ==> l.next in s'.data && s'.data[l.next] == s.data[l.next])
  }

  /** The scan's coverage of what `l` holds is not weakened. */
  ghost predicate KeepsCover(s: State, s': State) {
    && (s'.scan.Scan? && s.scan.Scan? ==>
          s'.retired <= s.retired && s'.scan.cursor == s.scan.cursor && s'.scan.hazards == s.scan.hazards)
    && (s'.scan.Scan? ==> s.scan.Scan?)
  }

  lemma Stable(s: State, g: Aux, s': State, g': Aux, u: Thread)
    requires u in s.threads && ThreadOk(s, g, u) && Rely(s, g, s', g', u)
    requires forall n :: n in g.pos ==> g.pos[n] < |g.hist|
    requires ScanCovers(s', s'.threads[u])
    ensures ThreadOk(s', g', u)
  {
    StableRecords(s, g, s', g', u);
    StableEnqueue(s, g, s', g', u);
    StableDequeue(s, g, s', g', u);
  }

  lemma StableRecords(s: State, g: Aux, s': State, g': Aux, u: Thread)
    requires u in s.threads && RecordsOk(s, g, u, s.threads[u]) && Rely(s, g, s', g', u)
    ensures RecordsOk(s', g', u, s.threads[u])
    ensures HasRecord(s.threads[u].pc) ==> s'.records[s.threads[u].rec] == s.records[s.threads[u].rec]
    ensures HasRecord2(s.threads[u].pc) ==> s'.records[s.threads[u].rec2] == s.records[s.threads[u].rec2]
  {
  }

  lemma StableEnqueue(s: State, g: Aux, s': State, g': Aux, u: Thread)
    requires u in s.threads && Rely(s, g, s', g', u)
    requires RecordsOk(s, g, u, s.threads[u]) && EnqueueOk(s, g, u, s.threads[u])
    requires forall n :: n in g.pos ==> g.pos[n] < |g.hist|
    ensures RecordsOk(s', g', u, s.threads[u]) && EnqueueOk(s', g', u, s.threads[u])
  {
    StableRecords(s, g, s', g', u);
    SuccessorStable(s, g, s', g', u);
  }

  lemma StableDequeue(s: State, g: Aux, s': State, g': Aux, u: Thread)
    requires u in s.threads && Rely(s, g, s', g', u)
    requires RecordsOk(s, g, u, s.threads[u]) && DequeueOk(s, g, u, s.threads[u])
    requires forall n :: n in g.pos ==> g.pos[n] < |g.hist|
    ensures RecordsOk(s', g', u, s.threads[u]) && DequeueOk(s', g', u, s.threads[u])
  {
    StableRecords(s, g, s', g', u);
    SuccessorStable(s, g, s', g', u);
  }

  /** A successor that is not null stays the successor. */
  lemma SuccessorStable(s: State, g: Aux, s': State, g': Aux, u: Thread)
    requires u in s.threads && Rely(s, g, s', g', u)
    requires forall n :: n in g.pos ==> g.pos[n] < |g.hist|
    ensures forall n :: n in g.pos && Holds(s.threads[u], n) && Successor(g, n) != NULL ==>
              n in g'.pos && Successor(g', n) == Successor(g, n)
  {
    forall n | n in g.pos && Holds(s.threads[u], n) && Successor(g, n) != NULL
      ensures n in g'.pos && Successor(g', n) == Successor(g, n)
    {
      assert g'.hist[..|g.hist|][g.pos[n] + 1] == g'.hist[g.pos[n] + 1];
    }
  }
}
