/**
  The Michael-Scott job queue with hazard-pointer reclamation and a node pool, as a
  machine whose steps are single atomic accesses: one load, one compare-and-swap, one
  slot store or one counter update per step.  Any number of threads run `enqueue` and
  `dequeue`; a dequeuer that crosses the threshold of retired nodes collects, and collections
  may also be run from outside at any time.
 */
module LockFreeQueue {
  import opened Wrappers

  type Node = nat     // the address of a queue node; 0 is the null pointer
  type Thread = nat
  type Job = nat

  const NULL: Node := 0
  const MAX_RETRIES: nat := 1000
  const MAX_OUTER_RETRIES: nat := 100
  const MAX_INNER_RETRIES: nat := 10
  const BASE_THRESHOLD: nat := 64
  const PER_THREAD_THRESHOLD: nat := 16
  const MAX_THRESHOLD: nat := 512

  /** The counter `approximate_size_` is a 64-bit unsigned integer. */
  const WORD: nat := 0x1_0000_0000_0000_0000

  /** The program points of `enqueue` (E...) and `dequeue` (D...). */
  datatype Pc =
    | Idle
    | EGuard | ELoadTail | EProtect | EValidate | ELoadNext | ERecheck
    | ELink | EHelp | ESwing | ECount | EGiveUp | ERelease
    | DGuardHead | DGuardNext | DLoadHead | DProtectHead | DValidate | DLoadTail
    | DLoadNext | DProtectNext | DVerifyNext | DRecheck | DHelp | DSwing
    | DTake | DRetire | DCollect | DScan | DCount | DReleaseNext | DReleaseHead

  /** What the last finished operation of a thread answered. */
  datatype Outcome =
    | Nothing
    | InvalidArgument            // enqueue of a null job
    | Linked                     // enqueue succeeded
    | Busy                       // enqueue ran out of retries
    | SawEmpty                   // dequeue found head == tail and no successor
    | Exhausted                  // dequeue ran out of retries
    | Delivered(job: Job)        // dequeue succeeded

  /** The local variables of one thread. `rec` and `rec2` are its hazard records. */
  datatype Local = Local(pc: Pc, retry: nat, inner: nat, job: Job, node: Node,
                         tail: Node, head: Node, next: Node,
                         rec: nat, rec2: nat, outcome: Outcome)

  /** A hazard record; guards only ever use the first slot of a record. */
  datatype Record = Record(active: bool, slot: Node)

  /**
    A collection in progress: records `0..cursor` are still to be read, and `hazards`
    holds the pointers read so far.  The lock `retire_mutex_` is held throughout, by the
    dequeuer that crossed the threshold or by a caller from outside the queue.
   */
  datatype Scan = NoScan | Scan(cursor: nat, hazards: set<Node>, who: Option<Thread>)

  datatype State = State(head: Node, tail: Node,
                         next: map<Node, Node>, data: map<Node, Option<Job>>,
                         free: set<Node>, retired: set<Node>, size: nat,
                         records: seq<Record>, threads: map<Thread, Local>, scan: Scan)

  predicate Init(s: State, dummy: Node) {
    && dummy != NULL
    && s.head == dummy && s.tail == dummy
    && s.next == map[dummy := NULL] && s.data == map[dummy := None]
    && s.free == {} && s.retired == {} && s.size == 0
    && s.records == [] && s.scan == NoScan
    && forall t :: t in s.threads ==> s.threads[t].pc == Idle
  }

  /**
    The steps of the machine.  `weak` is true when a weak compare-and-swap fails for no
    reason; `link` is the free-list link the pool writes into a node it takes back.
   */
  datatype Action =
    | StartEnqueue(t: Thread, job: Option<Job>, node: Node)
    | StartDequeue(t: Thread)
    | Claim(t: Thread, record: nat)
    | Run(t: Thread, weak: bool, link: Node)
    | ScanStart(who: Option<Thread>)
    | ScanRead
    | ScanReclaim(node: Node, link: Node)
    | ScanEnd

  predicate Claiming(pc: Pc) {
    pc == EGuard || pc == DGuardHead || pc == DGuardNext
  }

  /** A thread waits for the lock of a collection, or runs one: its steps are those of the scan. */
  predicate Collecting(pc: Pc) {
    pc == DCollect || pc == DScan
  }

  predicate Enabled(s: State, a: Action) {
    match a
    case StartEnqueue(t, job, node) =>
      && t in s.threads && s.threads[t].pc == Idle
      && (job.Some? ==> node != NULL && (node in s.free || node !in s.next))
    case StartDequeue(t) => t in s.threads && s.threads[t].pc == Idle
    case Claim(t, r) =>
      && t in s.threads && Claiming(s.threads[t].pc)
      && r <= |s.records| && (r < |s.records| ==> !s.records[r].active)
    case Run(t, weak, link) =>
      && t in s.threads && s.threads[t].pc != Idle && !Claiming(s.threads[t].pc) && !Collecting(s.threads[t].pc)
      && (s.threads[t].pc == DRetire ==> s.scan.NoScan?)
      && Derefs(s.threads[t]) <= s.next.Keys
    case ScanStart(who) =>
      s.scan.NoScan? && (who.Some? ==> who.value in s.threads && s.threads[who.value].pc == DCollect)
    case ScanRead => s.scan.Scan? && 0 < s.scan.cursor <= |s.records|
    case ScanReclaim(n, link) =>
      s.scan.Scan? && s.scan.cursor == 0 && n in s.retired && n !in s.scan.hazards
    case ScanEnd =>
      && s.scan.Scan? && s.scan.cursor == 0 && s.retired <= s.scan.hazards
      && (s.scan.who.Some? ==> s.scan.who.value in s.threads && s.threads[s.scan.who.value].pc == DScan)
  }

  /** The nodes whose fields the next step of a thread reads or writes. */
  function Derefs(l: Local): set<Node> {
    match l.pc
    case ELoadNext => {l.tail}
    case ELink => {l.tail}
    case EGiveUp => {l.node}
    case DLoadNext => {l.head}
    case DVerifyNext => {l.head}
    case DTake => {l.next}
    case _ => {}
  }

  function Set(s: State, t: Thread, l: Local): State {
    s.(threads := s.threads[t := l])
  }

  /** A failed attempt of `enqueue`: the next iteration, or giving up. */
  function RetryEnqueue(l: Local): Local {
    if l.retry + 1 < MAX_RETRIES then l.(retry := l.retry + 1, pc := ELoadTail)
    else l.(pc := EGiveUp)
  }

  /** A failed attempt of `dequeue`: the next iteration, or the answer "empty". */
  function RetryDequeue(l: Local): Local {
    if l.retry + 1 < MAX_OUTER_RETRIES
    then l.(retry := l.retry + 1, inner := 0, pc := DLoadHead)
    else l.(pc := DReleaseNext, outcome := Exhausted)
  }

  function SetSlot(s: State, r: nat, n: Node): State
    requires r < |s.records|
  {
    s.(records := s.records[r := s.records[r].(slot := n)])
  }

  /** Clears a record and gives it back; a record that is not in the list is ignored. */
  function Release(s: State, r: nat): State {
    if r < |s.records| then s.(records := s.records[r := Record(false, NULL)]) else s
  }

  function Protect(s: State, r: nat, n: Node): State {
    if r < |s.records| then SetSlot(s, r, n) else s
  }

  function Begin(l: Local): Local {
    l.(retry := 0, inner := 0, tail := NULL, head := NULL, next := NULL, outcome := Nothing)
  }

  function StartEnqueueStep(s: State, t: Thread, job: Option<Job>, n: Node): State
    requires t in s.threads
  {
    var l := Begin(s.threads[t]);
    if job.None? then Set(s, t, l.(outcome := InvalidArgument))
    else
      Set(s.(free := s.free - {n}, next := s.next[n := NULL], data := s.data[n := job]),
          t, l.(pc := EGuard, job := job.value, node := n))
  }

  function StartDequeueStep(s: State, t: Thread): State
    requires t in s.threads
  {
    Set(s, t, Begin(s.threads[t]).(pc := DGuardHead))
  }

  /** Takes an inactive record, or pushes a new one in front of the record list. */
  function ClaimStep(s: State, t: Thread, r: nat): State
    requires t in s.threads && r <= |s.records|
  {
    var l := s.threads[t];
    var records := if r < |s.records| then s.records[r := Record(true, NULL)]
                   else s.records + [Record(true, NULL)];
    var l' := match l.pc
      case EGuard => l.(rec := r, pc := ELoadTail)
      case DGuardHead => l.(rec := r, pc := DGuardNext)
      case _ => l.(rec2 := r, pc := DLoadHead);
    Set(s.(records := records), t, l')
  }

  // ---------------------------------------------------------------- steps of enqueue

  function LoadTail(s: State, t: Thread): State
    requires t in s.threads
  {
    Set(s, t, s.threads[t].(tail := s.tail, pc := EProtect))
  }

  function ProtectTail(s: State, t: Thread): State
    requires t in s.threads
  {
    var l := s.threads[t];
    Set(Protect(s, l.rec, l.tail), t, l.(pc := EValidate))
  }

  function ValidateTail(s: State, t: Thread): State
    requires t in s.threads
  {
    var l := s.threads[t];
    Set(s, t, if l.tail == s.tail then l.(pc := ELoadNext) else RetryEnqueue(l))
  }

  function LoadTailNext(s: State, t: Thread): State
    requires t in s.threads && s.threads[t].tail in s.next
  {
    var l := s.threads[t];
    Set(s, t, l.(next := s.next[l.tail], pc := ERecheck))
  }

  function RecheckTail(s: State, t: Thread): State
    requires t in s.threads
  {
    var l := s.threads[t];
    Set(s, t, if l.tail != s.tail then RetryEnqueue(l)
              else if l.next == NULL then l.(pc := ELink) else l.(pc := EHelp))
  }

  function Link(s: State, t: Thread, weak: bool): State
    requires t in s.threads && s.threads[t].tail in s.next
  {
    var l := s.threads[t];
    if s.next[l.tail] == NULL && !weak
    then Set(s.(next := s.next[l.tail := l.node]), t, l.(pc := ESwing))
    else Set(s, t, RetryEnqueue(l))
  }

  function SwingTail(s: State, from: Node, to: Node, weak: bool): State {
    if s.tail == from && !weak then s.(tail := to) else s
  }

  function HelpEnqueue(s: State, t: Thread, weak: bool): State
    requires t in s.threads
  {
    var l := s.threads[t];
    Set(SwingTail(s, l.tail, l.next, weak), t, RetryEnqueue(l))
  }

  function SwingToLinked(s: State, t: Thread, weak: bool): State
    requires t in s.threads
  {
    var l := s.threads[t];
    Set(SwingTail(s, l.tail, l.node, weak), t, l.(pc := ECount))
  }

  function CountUp(s: State, t: Thread): State
    requires t in s.threads
  {
    Set(s.(size := (s.size + 1) % WORD), t, s.threads[t].(pc := ERelease, outcome := Linked))
  }

  function GiveUp(s: State, t: Thread, link: Node): State
    requires t in s.threads
  {
    var l := s.threads[t];
    Set(s.(free := s.free + {l.node}, next := s.next[l.node := link], data := s.data[l.node := None]),
        t, l.(pc := ERelease, outcome := Busy))
  }

  function ReleaseTail(s: State, t: Thread): State
    requires t in s.threads
  {
    Set(Release(s, s.threads[t].rec), t, s.threads[t].(pc := Idle))
  }

  /** One atomic step of `enqueue`. */
  function EnqueueStep(s: State, t: Thread, weak: bool, link: Node): State
    requires t in s.threads && Derefs(s.threads[t]) <= s.next.Keys
  {
    var l := s.threads[t];
    match l.pc
    case ELoadTail => LoadTail(s, t)
    case EProtect => ProtectTail(s, t)
    case EValidate => ValidateTail(s, t)
    case ELoadNext => LoadTailNext(s, t)
    case ERecheck => RecheckTail(s, t)
    case ELink => Link(s, t, weak)
    case EHelp => HelpEnqueue(s, t, weak)
    case ESwing => SwingToLinked(s, t, weak)
    case ECount => CountUp(s, t)
    case EGiveUp => GiveUp(s, t, link)
    case _ => ReleaseTail(s, t)
  }

  // ---------------------------------------------------------------- steps of dequeue

  function LoadHead(s: State, t: Thread): State
    requires t in s.threads
  {
    Set(s, t, s.threads[t].(head := s.head, pc := DProtectHead))
  }

  function ProtectHead(s: State, t: Thread): State
    requires t in s.threads
  {
    var l := s.threads[t];
    Set(Protect(s, l.rec, l.head), t, l.(pc := DValidate))
  }

  function ValidateHead(s: State, t: Thread): State
    requires t in s.threads
  {
    var l := s.threads[t];
    Set(s, t, if l.head == s.head then l.(pc := DLoadTail) else RetryDequeue(l))
  }

  function ReadTail(s: State, t: Thread): State
    requires t in s.threads
  {
    Set(s, t, s.threads[t].(tail := s.tail, pc := DLoadNext))
  }

  function LoadHeadNext(s: State, t: Thread): State
    requires t in s.threads && s.threads[t].head in s.next
  {
    var l := s.threads[t];
    var next := s.next[l.head];
    Set(s, t, l.(next := next, pc := if next == NULL then DRecheck else DProtectNext))
  }

  function ProtectNext(s: State, t: Thread): State
    requires t in s.threads
  {
    var l := s.threads[t];
    Set(Protect(s, l.rec2, l.next), t, l.(pc := DVerifyNext))
  }

  function VerifyNext(s: State, t: Thread): State
    requires t in s.threads && s.threads[t].head in s.next
  {
    var l := s.threads[t];
    Set(s, t, if l.next == s.next[l.head] then l.(pc := DRecheck)
              else if l.inner + 1 < MAX_INNER_RETRIES then l.(inner := l.inner + 1, pc := DLoadNext)
              else RetryDequeue(l))
  }

  function RecheckHead(s: State, t: Thread): State
    requires t in s.threads
  {
    var l := s.threads[t];
    Set(s, t,
        if l.head != s.head then RetryDequeue(l)
        else if l.head == l.tail then
          (if l.next == NULL then l.(pc := DReleaseNext, outcome := SawEmpty) else l.(pc := DHelp))
        else
          (if l.next == NULL then RetryDequeue(l) else l.(pc := DSwing)))
  }

  function HelpDequeue(s: State, t: Thread, weak: bool): State
    requires t in s.threads
  {
    var l := s.threads[t];
    Set(SwingTail(s, l.tail, l.next, weak), t, RetryDequeue(l))
  }

  function SwingHead(s: State, t: Thread, weak: bool): State
    requires t in s.threads
  {
    var l := s.threads[t];
    if s.head == l.head && !weak then Set(s.(head := l.next), t, l.(pc := DTake))
    else Set(s, t, RetryDequeue(l))
  }

  /** Moves the job out of the node; a moved-from pointer is null. */
  function Take(s: State, t: Thread): State
    requires t in s.threads && s.threads[t].next in s.next
  {
    var l := s.threads[t];
    var job := if l.next in s.data && s.data[l.next].Some? then s.data[l.next].value else 0;
    Set(s.(data := s.data[l.next := None]), t, l.(pc := DRetire, job := job))
  }

  function ActiveCount(records: seq<Record>): nat {
    if records == [] then 0 else ActiveCount(records[1..]) + if records[0].active then 1 else 0
  }

  /** How many retired nodes make the retiring thread collect. */
  function Threshold(records: seq<Record>): nat {
    var t := BASE_THRESHOLD + ActiveCount(records) * PER_THREAD_THRESHOLD;
    if t < MAX_THRESHOLD then t else MAX_THRESHOLD
  }

  function Retire(s: State, t: Thread): State
    requires t in s.threads
  {
    var l := s.threads[t];
    var retired := s.retired + {l.head};
    Set(s.(retired := retired), t, l.(pc := if |retired| >= Threshold(s.records) then DCollect else DCount))
  }

  function CountDown(s: State, t: Thread): State
    requires t in s.threads
  {
    var l := s.threads[t];
    Set(s.(size := (s.size + WORD - 1) % WORD), t, l.(pc := DReleaseNext, outcome := Delivered(l.job)))
  }

  function ReleaseNext(s: State, t: Thread): State
    requires t in s.threads
  {
    Set(Release(s, s.threads[t].rec2), t, s.threads[t].(pc := DReleaseHead))
  }

  function ReleaseHead(s: State, t: Thread): State
    requires t in s.threads
  {
    Set(Release(s, s.threads[t].rec), t, s.threads[t].(pc := Idle))
  }

  /** One atomic step of `dequeue`. */
  function DequeueStep(s: State, t: Thread, weak: bool): State
    requires t in s.threads && Derefs(s.threads[t]) <= s.next.Keys
  {
    var l := s.threads[t];
    match l.pc
    case DLoadHead => LoadHead(s, t)
    case DProtectHead => ProtectHead(s, t)
    case DValidate => ValidateHead(s, t)
    case DLoadTail => ReadTail(s, t)
    case DLoadNext => LoadHeadNext(s, t)
    case DProtectNext => ProtectNext(s, t)
    case DVerifyNext => VerifyNext(s, t)
    case DRecheck => RecheckHead(s, t)
    case DHelp => HelpDequeue(s, t, weak)
    case DSwing => SwingHead(s, t, weak)
    case DTake => Take(s, t)
    case DRetire => Retire(s, t)
    case DCount => CountDown(s, t)
    case DReleaseNext => ReleaseNext(s, t)
    case _ => ReleaseHead(s, t)
  }

  // ---------------------------------------------------------------- steps of a collection

  /** Moves the thread that collects, if there is one. */
  function MoveCollector(s: State, who: Option<Thread>, pc: Pc): State {
    if who.Some? && who.value in s.threads then Set(s, who.value, s.threads[who.value].(pc := pc)) else s
  }

  function StartScan(s: State, who: Option<Thread>): State {
    MoveCollector(s.(scan := Scan(|s.records|, {}, who)), who, DScan)
  }

  function EndScan(s: State): State
    requires s.scan.Scan?
  {
    MoveCollector(s.(scan := NoScan), s.scan.who, DCount)
  }

  function ReadRecord(s: State): State
    requires s.scan.Scan? && 0 < s.scan.cursor <= |s.records|
  {
    var slot := s.records[s.scan.cursor - 1].slot;
    s.(scan := s.scan.(cursor := s.scan.cursor - 1,
                       hazards := if slot == NULL then s.scan.hazards else s.scan.hazards + {slot}))
  }

  function Reclaim(s: State, n: Node, link: Node): State {
    s.(retired := s.retired - {n}, free := s.free + {n},
       next := s.next[n := link], data := s.data[n := None])
  }

  predicate InEnqueue(pc: Pc) {
    pc in {EGuard, ELoadTail, EProtect, EValidate, ELoadNext, ERecheck, ELink, EHelp, ESwing, ECount,
           EGiveUp, ERelease}
  }

  /** The thread whose step an action is; a collection may also be run from outside. */
  function Actor(s: State, a: Action): Option<Thread> {
    match a
    case StartEnqueue(t, job, n) => Some(t)
    case StartDequeue(t) => Some(t)
    case Claim(t, r) => Some(t)
    case Run(t, weak, link) => Some(t)
    case ScanStart(who) => who
    case _ => if s.scan.Scan? then s.scan.who else None
  }

  /** The state after an enabled step. */
  function After(s: State, a: Action): State
    requires Enabled(s, a)
  {
    match a
    case StartEnqueue(t, job, n) => StartEnqueueStep(s, t, job, n)
    case StartDequeue(t) => StartDequeueStep(s, t)
    case Claim(t, r) => ClaimStep(s, t, r)
    case Run(t, weak, link) =>
      if InEnqueue(s.threads[t].pc) then EnqueueStep(s, t, weak, link) else DequeueStep(s, t, weak)
    case ScanStart(who) => StartScan(s, who)
    case ScanRead => ReadRecord(s)
    case ScanReclaim(n, link) => Reclaim(s, n, link)
    case ScanEnd => EndScan(s)
  }

  /** A finite run from an initial state: `states[i]` is followed by `states[i + 1]`. */
  predicate IsRun(states: seq<State>, actions: seq<Action>, dummy: Node) {
    && |states| == |actions| + 1
    && Init(states[0], dummy)
    && forall i :: 0 <= i < |actions| ==>
         Enabled(states[i], actions[i]) && states[i + 1] == After(states[i], actions[i])
  }
}
