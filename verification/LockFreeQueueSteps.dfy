/** Every step of the lock-free queue keeps the invariant. */
module LockFreeQueueSteps {
  import opened LockFreeQueue
  import opened LockFreeQueueInvariant

  lemma InitKeeps(s: State, dummy: Node)
    requires Init(s, dummy)
    ensures Inv(s, InitAux(dummy))
  {
  }

  // ---------------------------------------------------------------- frames

  lemma ChainFrame(s: State, g: Aux, s': State, g': Aux)
    requires ChainOk(s, g)
    requires s'.head == s.head && s'.tail == s.tail && s'.next == s.next && s'.data == s.data
    requires g'.hist == g.hist && g'.jobs == g.jobs && g'.pos == g.pos
    requires g'.headPos == g.headPos && g'.tailPos == g.tailPos
    ensures ChainOk(s', g')
  {
  }

  lemma PlacesFrame(s: State, g: Aux, s': State, g': Aux)
    requires PlacesOk(s, g)
    requires s'.next == s.next && s'.data.Keys == s.data.Keys && s'.free == s.free && s'.retired == s.retired
    requires s'.threads == s.threads && s'.records == s.records && s'.scan == s.scan
    requires g'.pos == g.pos && g'.owned == g.owned && g'.limbo == g.limbo && g'.owner == g.owner
    requires g'.headPos == g.headPos
    ensures PlacesOk(s', g')
  {
  }

  /** The stepping thread keeps the node it owns and the node it has in limbo. */
  ghost predicate KeepsPlaces(l: Local, l': Local) {
    && (OwnsNode(l.pc) ==> OwnsNode(l'.pc) && l'.node == l.node)
    && (l.pc in {DTake, DRetire} ==> l'.pc in {DTake, DRetire} && l'.head == l.head)
  }

  lemma PlacesLocal(s: State, g: Aux, t: Thread, l': Local)
    requires PlacesOk(s, g) && t in s.threads && KeepsPlaces(s.threads[t], l')
    ensures PlacesOk(Set(s, t, l'), g)
  {
  }

  ghost predicate Relied(s: State, g: Aux, s': State, g': Aux, t: Thread) {
    forall u :: u in s.threads && u != t ==> Rely(s, g, s', g', u)
  }

  /** Assembles the invariant from the stepping thread's claims and what the others rely on. */
  lemma Assemble(s: State, g: Aux, s': State, g': Aux, t: Thread)
    requires Inv(s, g) && t in s.threads && s'.threads.Keys == s.threads.Keys
    requires ChainOk(s', g') && PlacesOk(s', g') && ThreadOk(s', g', t)
    requires KeepsCover(s, s') && Relied(s, g, s', g', t)
    ensures Inv(s', g')
  {
    hide ChainOk, PlacesOk;
    forall u | u in s'.threads
      ensures ThreadOk(s', g', u)
    {
      if u != t {
        AssembleThread(s, g, s', g', u);
      }
    }
  }

  lemma AssembleThread(s: State, g: Aux, s': State, g': Aux, u: Thread)
    requires u in s.threads && ChainOk(s, g) && ThreadOk(s, g, u)
    requires KeepsCover(s, s') && Rely(s, g, s', g', u)
    ensures u in s'.threads && ThreadOk(s', g', u)
  {
    assert forall n :: n in g.pos ==> g.pos[n] < |g.hist|;
    Stable(s, g, s', g', u);
  }

  // ---------------------------------------------------------------- kinds of steps

  /** A step that changes only the local variables of `t`. */
  lemma LocalStep(s: State, g: Aux, t: Thread, l': Local)
    requires Inv(s, g) && t in s.threads
    requires ThreadOk(Set(s, t, l'), g, t)
    requires KeepsPlaces(s.threads[t], l')
    ensures Inv(Set(s, t, l'), g)
  {
    hide Rely, Relied, ThreadOk, KeepsPlaces, ChainOk, PlacesOk;
    ChainFrame(s, g, Set(s, t, l'), g);
    PlacesLocal(s, g, t, l');
    LocalRely(s, g, t, l');
    Assemble(s, g, Set(s, t, l'), g, t);
  }

  lemma LocalRely(s: State, g: Aux, t: Thread, l': Local)
    requires t in s.threads
    ensures Relied(s, g, Set(s, t, l'), g, t)
  {
  }

  /** A store into a hazard slot that `t` owns. */
  lemma SlotStep(s: State, g: Aux, t: Thread, r: nat, n: Node, l': Local)
    requires Inv(s, g) && t in s.threads
    requires r < |s.records| && r in g.owner && g.owner[r] == t
    requires ThreadOk(Set(SetSlot(s, r, n), t, l'), g, t)
    requires KeepsPlaces(s.threads[t], l')
    ensures Inv(Set(SetSlot(s, r, n), t, l'), g)
  {
    hide Rely, Relied, ThreadOk, KeepsPlaces, ChainOk, PlacesOk;
    var s' := Set(SetSlot(s, r, n), t, l');
    ChainFrame(s, g, s', g);
    SlotPlaces(s, g, t, r, n, l');
    SlotRely(s, g, t, r, n, l');
    Assemble(s, g, s', g, t);
  }

  lemma SlotPlaces(s: State, g: Aux, t: Thread, r: nat, n: Node, l': Local)
    requires PlacesOk(s, g) && t in s.threads && KeepsPlaces(s.threads[t], l')
    requires r < |s.records|
    ensures PlacesOk(Set(SetSlot(s, r, n), t, l'), g)
  {
  }

  lemma SlotRely(s: State, g: Aux, t: Thread, r: nat, n: Node, l': Local)
    requires t in s.threads && r < |s.records| && r in g.owner && g.owner[r] == t
    ensures Relied(s, g, Set(SetSlot(s, r, n), t, l'), g, t)
  {
  }

  /** A swing of `tail` from a held node to its successor, or a failed attempt at it. */
  lemma TailStep(s: State, g: Aux, t: Thread, m: Node, n: Node, weak: bool, l': Local)
    requires Inv(s, g) && t in s.threads
    requires m in g.pos && n == Successor(g, m) && n != NULL
    requires ThreadOk(Set(s, t, l'), g, t) && KeepsPlaces(s.threads[t], l')
    ensures Inv(Set(SwingTail(s, m, n, weak), t, l'), AuxTail(s, g, m, weak))
  {
    hide ThreadOk, KeepsPlaces, Successor, Inv;
    if s.tail == m && !weak {
      TailMoves(s, g, t, n, l');
    } else {
      LocalStep(s, g, t, l');
    }
  }

  function Advanced(g: Aux): Aux {
    g.(tailPos := g.tailPos + 1)
  }

  lemma TailMoves(s: State, g: Aux, t: Thread, n: Node, l': Local)
    requires Inv(s, g) && t in s.threads
    requires s.tail in g.pos && n == Successor(g, s.tail) && n != NULL
    requires ThreadOk(Set(s, t, l'), g, t) && KeepsPlaces(s.threads[t], l')
    ensures Inv(Set(s.(tail := n), t, l'), g.(tailPos := g.tailPos + 1))
  {
    hide Rely, Relied, ThreadOk, KeepsPlaces, ChainOk, PlacesOk, Successor;
    var s', g' := Set(s.(tail := n), t, l'), Advanced(g);
    TailChain(s, g, n);
    ChainFrame(s.(tail := n), g', s', g');
    PlacesLocal(s, g, t, l');
    PlacesFrame(Set(s, t, l'), g, s', g');
    TailRely(s, g, t, n, l');
    TailThread(Set(s, t, l'), g, t, n);
    assert s' == Set(s, t, l').(tail := n);
    Assemble(s, g, s', g', t);
  }

  lemma TailChain(s: State, g: Aux, n: Node)
    requires ChainOk(s, g)
    requires s.tail in g.pos && n == Successor(g, s.tail) && n != NULL
    ensures ChainOk(s.(tail := n), Advanced(g))
  {
    hide NextOk, DataOk;
    assert g.pos[g.hist[g.tailPos]] == g.tailPos;
  }

  lemma TailRely(s: State, g: Aux, t: Thread, n: Node, l': Local)
    requires t in s.threads
    ensures Relied(s, g, Set(s.(tail := n), t, l'), Advanced(g), t)
  {
  }

  /** Moving `tail` forward keeps the claims of the thread that did it. */
  lemma TailThread(s: State, g: Aux, t: Thread, n: Node)
    requires t in s.threads && ThreadOk(s, g, t)
    ensures ThreadOk(s.(tail := n), Advanced(g), t)
  {
    hide Successor;
    var s', g', l := s.(tail := n), Advanced(g), s.threads[t];
    assert forall k :: k in g.pos ==> Successor(g', k) == Successor(g, k) by { SameSuccessors(g); }
    assert DequeueOk(s', g', t, l) by { hide EnqueueOk, ScanCovers; }
  }

  lemma SameSuccessors(g: Aux)
    ensures forall k :: k in g.pos ==> Successor(Advanced(g), k) == Successor(g, k)
  {
  }

  /** A change of the size counter. */
  lemma SizeStep(s: State, g: Aux, t: Thread, size: nat, l': Local)
    requires Inv(s, g) && t in s.threads
    requires ThreadOk(Set(s, t, l'), g, t) && KeepsPlaces(s.threads[t], l')
    ensures Inv(Set(s.(size := size), t, l'), g)
  {
    hide Rely, Relied, ThreadOk, KeepsPlaces, PlacesOk;
    LocalStep(s, g, t, l');
    var s1, s' := Set(s, t, l'), Set(s.(size := size), t, l');
    SizeFrame(s1, g, size);
    assert s' == s1.(size := size);
  }

  lemma SizeFrame(s: State, g: Aux, size: nat)
    requires Inv(s, g)
    ensures Inv(s.(size := size), g)
  {
    hide PlacesOk, ChainOk, ThreadOk;
    var s' := s.(size := size);
    ChainFrame(s, g, s', g);
    PlacesFrame(s, g, s', g);
    forall u | u in s'.threads
      ensures ThreadOk(s', g, u)
    {
      SizeThread(s, g, size, u);
    }
  }

  lemma SizeThread(s: State, g: Aux, size: nat, u: Thread)
    requires u in s.threads && ThreadOk(s, g, u)
    ensures ThreadOk(s.(size := size), g, u)
  {
  }

  // ---------------------------------------------------------------- enqueue

  lemma RetryEnqueueOk(s: State, g: Aux, t: Thread)
    requires t in s.threads && ThreadOk(s, g, t)
    requires HasRecord(s.threads[t].pc) && OwnsNode(s.threads[t].pc)
    ensures ThreadOk(Set(s, t, RetryEnqueue(s.threads[t])), g, t)
    ensures KeepsPlaces(s.threads[t], RetryEnqueue(s.threads[t]))
  {
  }

  lemma RetryEnqueueKeeps(s: State, g: Aux, t: Thread)
    requires Inv(s, g) && t in s.threads
    requires HasRecord(s.threads[t].pc) && OwnsNode(s.threads[t].pc)
    ensures Inv(Set(s, t, RetryEnqueue(s.threads[t])), g)
  {
    hide ThreadOk, ChainOk, PlacesOk;
    RetryEnqueueOk(s, g, t);
    LocalStep(s, g, t, RetryEnqueue(s.threads[t]));
  }

  /** Facts about a live node. */
  lemma LiveNode(s: State, g: Aux, n: Node)
    requires ChainOk(s, g) && n in g.pos
    ensures n in s.next && n != NULL && s.next[n] == Successor(g, n)
    ensures s.next[n] == NULL <==> g.pos[n] + 1 == |g.hist|
    ensures n == s.tail ==> g.pos[n] == g.tailPos
    ensures n == s.head ==> g.pos[n] == g.headPos
  {
    assert g.pos[g.hist[g.tailPos]] == g.tailPos;
    assert g.hist[g.pos[n]] == n;
  }

  lemma LiveTail(s: State, g: Aux)
    requires ChainOk(s, g)
    ensures s.tail in g.pos && g.pos[s.tail] == g.tailPos
    ensures s.head in g.pos && g.pos[s.head] == g.headPos
  {
  }

  /** A node at or behind `headPos` is not retired. */
  lemma NotRetired(s: State, g: Aux, n: Node)
    requires PlacesOk(s, g) && n in g.pos && g.headPos <= g.pos[n]
    ensures n !in s.retired
  {
  }

  lemma LoadTailKeeps(s: State, g: Aux, t: Thread)
    requires Inv(s, g) && t in s.threads && s.threads[t].pc == ELoadTail
    ensures Inv(LoadTail(s, t), g)
  {
    hide ChainOk, PlacesOk;
    var l' := s.threads[t].(tail := s.tail, pc := EProtect);
    assert ThreadOk(s, g, t);
    assert ThreadOk(Set(s, t, l'), g, t);
    LocalStep(s, g, t, l');
  }

  lemma ProtectTailKeeps(s: State, g: Aux, t: Thread)
    requires Inv(s, g) && t in s.threads && s.threads[t].pc == EProtect
    ensures Inv(ProtectTail(s, t), g)
  {
    hide ChainOk, PlacesOk;
    var l := s.threads[t];
    assert ThreadOk(s, g, t);
    assert ThreadOk(Set(SetSlot(s, l.rec, l.tail), t, l.(pc := EValidate)), g, t);
    SlotStep(s, g, t, l.rec, l.tail, l.(pc := EValidate));
  }

  lemma ValidateTailKeeps(s: State, g: Aux, t: Thread)
    requires Inv(s, g) && t in s.threads && s.threads[t].pc == EValidate
    ensures Inv(ValidateTail(s, t), g)
  {
    hide ChainOk, PlacesOk;
    var l := s.threads[t];
    assert ThreadOk(s, g, t);
    if l.tail == s.tail {
      LiveTail(s, g);
      ValidatedTail(s, g);
      assert ThreadOk(Set(s, t, l.(pc := ELoadNext)), g, t);
      LocalStep(s, g, t, l.(pc := ELoadNext));
    } else {
      RetryEnqueueKeeps(s, g, t);
    }
  }

  lemma ValidatedTail(s: State, g: Aux)
    requires ChainOk(s, g) && PlacesOk(s, g)
    ensures s.tail !in s.retired && s.head !in s.retired
  {
    LiveTail(s, g);
    NotRetired(s, g, s.tail);
    NotRetired(s, g, s.head);
  }

  lemma LoadTailNextKeeps(s: State, g: Aux, t: Thread)
    requires Inv(s, g) && t in s.threads && s.threads[t].pc == ELoadNext && s.threads[t].tail in s.next
    ensures Inv(LoadTailNext(s, t), g)
  {
    hide ChainOk, PlacesOk;
    var l := s.threads[t];
    assert ThreadOk(s, g, t);
    LiveNode(s, g, l.tail);
    var l' := l.(next := s.next[l.tail], pc := ERecheck);
    assert ThreadOk(Set(s, t, l'), g, t);
    LocalStep(s, g, t, l');
  }

  lemma RecheckTailKeeps(s: State, g: Aux, t: Thread)
    requires Inv(s, g) && t in s.threads && s.threads[t].pc == ERecheck
    ensures Inv(RecheckTail(s, t), g)
  {
    hide ChainOk, PlacesOk;
    var l := s.threads[t];
    assert ThreadOk(s, g, t);
    if l.tail != s.tail {
      RetryEnqueueKeeps(s, g, t);
    } else {
      var l' := if l.next == NULL then l.(pc := ELink) else l.(pc := EHelp);
      assert ThreadOk(Set(s, t, l'), g, t);
      LocalStep(s, g, t, l');
    }
  }

  lemma HelpEnqueueKeeps(s: State, g: Aux, t: Thread, weak: bool)
    requires Inv(s, g) && t in s.threads && s.threads[t].pc == EHelp
    ensures Inv(HelpEnqueue(s, t, weak), AuxTail(s, g, s.threads[t].tail, weak))
  {
    hide ChainOk, PlacesOk, Successor;
    var l := s.threads[t];
    assert ThreadOk(s, g, t);
    RetryEnqueueOk(s, g, t);
    TailStep(s, g, t, l.tail, l.next, weak, RetryEnqueue(l));
  }

  lemma SwingToLinkedKeeps(s: State, g: Aux, t: Thread, weak: bool)
    requires Inv(s, g) && t in s.threads && s.threads[t].pc == ESwing
    ensures Inv(SwingToLinked(s, t, weak), AuxTail(s, g, s.threads[t].tail, weak))
  {
    hide ChainOk, PlacesOk, Successor;
    var l := s.threads[t];
    assert ThreadOk(s, g, t);
    var l' := l.(pc := ECount);
    assert ThreadOk(Set(s, t, l'), g, t);
    TailStep(s, g, t, l.tail, l.node, weak, l');
  }

  lemma CountUpKeeps(s: State, g: Aux, t: Thread)
    requires Inv(s, g) && t in s.threads && s.threads[t].pc == ECount
    ensures Inv(CountUp(s, t), g)
  {
    hide ChainOk, PlacesOk;
    var l' := s.threads[t].(pc := ERelease, outcome := Linked);
    assert ThreadOk(s, g, t);
    assert ThreadOk(Set(s, t, l'), g, t);
    SizeStep(s, g, t, (s.size + 1) % WORD, l');
  }

  // ---------------------------------------------------------------- dequeue

  lemma RetryDequeueOk(s: State, g: Aux, t: Thread)
    requires t in s.threads && ThreadOk(s, g, t)
    requires HasRecord2(s.threads[t].pc) && s.threads[t].pc !in {DTake, DRetire}
    ensures ThreadOk(Set(s, t, RetryDequeue(s.threads[t])), g, t)
    ensures KeepsPlaces(s.threads[t], RetryDequeue(s.threads[t]))
  {
  }

  lemma RetryDequeueKeeps(s: State, g: Aux, t: Thread)
    requires Inv(s, g) && t in s.threads
    requires HasRecord2(s.threads[t].pc) && s.threads[t].pc !in {DTake, DRetire}
    ensures Inv(Set(s, t, RetryDequeue(s.threads[t])), g)
  {
    hide ThreadOk, ChainOk, PlacesOk;
    RetryDequeueOk(s, g, t);
    LocalStep(s, g, t, RetryDequeue(s.threads[t]));
  }

  lemma LoadHeadKeeps(s: State, g: Aux, t: Thread)
    requires Inv(s, g) && t in s.threads && s.threads[t].pc == DLoadHead
    ensures Inv(LoadHead(s, t), g)
  {
    hide ChainOk, PlacesOk;
    var l' := s.threads[t].(head := s.head, pc := DProtectHead);
    assert ThreadOk(s, g, t);
    assert ThreadOk(Set(s, t, l'), g, t);
    LocalStep(s, g, t, l');
  }

  lemma ProtectHeadKeeps(s: State, g: Aux, t: Thread)
    requires Inv(s, g) && t in s.threads && s.threads[t].pc == DProtectHead
    ensures Inv(ProtectHead(s, t), g)
  {
    hide ChainOk, PlacesOk;
    var l := s.threads[t];
    assert ThreadOk(s, g, t);
    assert ThreadOk(Set(SetSlot(s, l.rec, l.head), t, l.(pc := DValidate)), g, t);
    SlotStep(s, g, t, l.rec, l.head, l.(pc := DValidate));
  }

  lemma ValidateHeadKeeps(s: State, g: Aux, t: Thread)
    requires Inv(s, g) && t in s.threads && s.threads[t].pc == DValidate
    ensures Inv(ValidateHead(s, t), g)
  {
    hide ChainOk, PlacesOk;
    var l := s.threads[t];
    assert ThreadOk(s, g, t);
    if l.head == s.head {
      LiveTail(s, g);
      ValidatedTail(s, g);
      assert ThreadOk(Set(s, t, l.(pc := DLoadTail)), g, t);
      LocalStep(s, g, t, l.(pc := DLoadTail));
    } else {
      RetryDequeueKeeps(s, g, t);
    }
  }

  lemma ReadTailKeeps(s: State, g: Aux, t: Thread)
    requires Inv(s, g) && t in s.threads && s.threads[t].pc == DLoadTail
    ensures Inv(ReadTail(s, t), g)
  {
    hide ChainOk, PlacesOk;
    var l := s.threads[t];
    assert ThreadOk(s, g, t);
    TailBehindHead(s, g, l.head);
    var l' := l.(tail := s.tail, pc := DLoadNext);
    assert ThreadOk(Set(s, t, l'), g, t);
    LocalStep(s, g, t, l');
  }

  lemma TailBehindHead(s: State, g: Aux, n: Node)
    requires ChainOk(s, g) && n in g.pos
    ensures g.pos[n] == g.headPos && s.tail != n ==> g.headPos < g.tailPos
  {
    LiveNode(s, g, n);
  }

  lemma ProtectNextKeeps(s: State, g: Aux, t: Thread)
    requires Inv(s, g) && t in s.threads && s.threads[t].pc == DProtectNext
    ensures Inv(ProtectNext(s, t), g)
  {
    hide ChainOk, PlacesOk, Successor;
    var l := s.threads[t];
    assert ThreadOk(s, g, t);
    assert ThreadOk(Set(SetSlot(s, l.rec2, l.next), t, l.(pc := DVerifyNext)), g, t);
    SlotStep(s, g, t, l.rec2, l.next, l.(pc := DVerifyNext));
  }

  lemma VerifyNextKeeps(s: State, g: Aux, t: Thread)
    requires Inv(s, g) && t in s.threads && s.threads[t].pc == DVerifyNext && s.threads[t].head in s.next
    ensures Inv(VerifyNext(s, t), g)
  {
    hide ChainOk, PlacesOk, Successor;
    var l := s.threads[t];
    assert ThreadOk(s, g, t);
    LiveNode(s, g, l.head);
    assert ThreadOk(Set(s, t, l.(pc := DRecheck)), g, t);
    LocalStep(s, g, t, l.(pc := DRecheck));
  }

  lemma RecheckHeadKeeps(s: State, g: Aux, t: Thread)
    requires Inv(s, g) && t in s.threads && s.threads[t].pc == DRecheck
    ensures Inv(RecheckHead(s, t), g)
  {
    hide ChainOk, PlacesOk, ThreadOk;
    var l := s.threads[t];
    if l.head != s.head || (l.head != l.tail && l.next == NULL) {
      RetryDequeueKeeps(s, g, t);
    } else {
      RecheckHeadOk(s, g, t);
      LocalStep(s, g, t, RecheckHead(s, t).threads[t]);
    }
  }

  lemma RecheckHeadOk(s: State, g: Aux, t: Thread)
    requires ChainOk(s, g) && PlacesOk(s, g)
    requires t in s.threads && ThreadOk(s, g, t) && s.threads[t].pc == DRecheck
    requires s.threads[t].head == s.head
    requires s.threads[t].head == s.threads[t].tail || s.threads[t].next != NULL
    ensures ThreadOk(RecheckHead(s, t), g, t)
  {
    hide ChainOk, PlacesOk, Successor;
    LiveTail(s, g);
    if s.threads[t].next != NULL {
      NextOfHead(s, g, s.threads[t].next);
    }
  }

  /** The successor of the dummy is in the queue. */
  lemma NextOfHead(s: State, g: Aux, n: Node)
    requires ChainOk(s, g) && PlacesOk(s, g) && s.head in g.pos && n == Successor(g, s.head) && n != NULL
    ensures n in g.pos && g.pos[n] == g.headPos + 1 && g.headPos + 1 < |g.hist| && n !in s.retired
  {
    LiveTail(s, g);
    NotRetired(s, g, n);
  }

  lemma HelpDequeueKeeps(s: State, g: Aux, t: Thread, weak: bool)
    requires Inv(s, g) && t in s.threads && s.threads[t].pc == DHelp
    ensures Inv(HelpDequeue(s, t, weak), AuxTail(s, g, s.threads[t].tail, weak))
  {
    hide ChainOk, PlacesOk, Successor;
    var l := s.threads[t];
    assert ThreadOk(s, g, t);
    RetryDequeueOk(s, g, t);
    TailStep(s, g, t, l.tail, l.next, weak, RetryDequeue(l));
  }

  lemma CountDownOk(s: State, g: Aux, t: Thread)
    requires t in s.threads && s.threads[t].pc == DCount && ThreadOk(s, g, t)
    ensures ThreadOk(Set(s, t, s.threads[t].(pc := DReleaseNext, outcome := Delivered(s.threads[t].job))), g, t)
  {
  }

  lemma CountDownKeeps(s: State, g: Aux, t: Thread)
    requires Inv(s, g) && t in s.threads && s.threads[t].pc == DCount
    ensures Inv(CountDown(s, t), g)
  {
    hide ChainOk, PlacesOk, ThreadOk;
    var l := s.threads[t];
    var l' := l.(pc := DReleaseNext, outcome := Delivered(l.job));
    CountDownOk(s, g, t);
    SizeStep(s, g, t, (s.size + WORD - 1) % WORD, l');
  }

  lemma LoadHeadNextKeeps(s: State, g: Aux, t: Thread)
    requires Inv(s, g) && t in s.threads && s.threads[t].pc == DLoadNext && s.threads[t].head in s.next
    ensures Inv(LoadHeadNext(s, t), AuxEmpty(g, t))
  {
    hide ChainOk, PlacesOk, ThreadOk, Rely, Relied, KeepsPlaces;
    var s', g' := LoadHeadNext(s, t), AuxEmpty(g, t);
    LoadHeadNextOk(s, g, t);
    LoadHeadNextRely(s, g, t);
    ChainFrame(s, g, s', g');
    PlacesLocal(s, g, t, s'.threads[t]);
    PlacesFrame(s', g, s', g');
    Assemble(s, g, s', g', t);
  }

  lemma LoadHeadNextOk(s: State, g: Aux, t: Thread)
    requires ChainOk(s, g)
    requires t in s.threads && ThreadOk(s, g, t) && s.threads[t].pc == DLoadNext && s.threads[t].head in s.next
    ensures ThreadOk(LoadHeadNext(s, t), AuxEmpty(g, t), t)
    ensures KeepsPlaces(s.threads[t], LoadHeadNext(s, t).threads[t])
  {
    hide ChainOk;
    LiveNode(s, g, s.threads[t].head);
  }

  lemma LoadHeadNextRely(s: State, g: Aux, t: Thread)
    requires t in s.threads && s.threads[t].head in s.next
    ensures Relied(s, g, LoadHeadNext(s, t), AuxEmpty(g, t), t)
  {
  }
}
