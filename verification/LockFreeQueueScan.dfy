/** A collection frees only nodes that no validated protection covers. */
module LockFreeQueueScan {
  import opened LockFreeQueue
  import opened Wrappers
  import opened LockFreeQueueInvariant
  import opened LockFreeQueueSteps

  /** Only the scan changes: claims other than the coverage are kept. */
  lemma ScanFrame(s: State, g: Aux, scan: Scan)
    requires Inv(s, g) && (scan.Scan? ==> scan.cursor <= |s.records|)
    requires forall u :: u in s.threads ==> ScanCovers(s.(scan := scan), s.threads[u])
    ensures Inv(s.(scan := scan), g)
  {
    hide ChainOk, PlacesOk, ThreadOk, ScanCovers;
    var s' := s.(scan := scan);
    ChainFrame(s, g, s', g);
    ScanPlaces(s, g, scan);
    forall u | u in s'.threads
      ensures ThreadOk(s', g, u)
    {
      ScanThread(s, g, scan, u);
    }
  }

  lemma ScanPlaces(s: State, g: Aux, scan: Scan)
    requires PlacesOk(s, g) && (scan.Scan? ==> scan.cursor <= |s.records|)
    ensures PlacesOk(s.(scan := scan), g)
  {
  }

  lemma ScanThread(s: State, g: Aux, scan: Scan, u: Thread)
    requires u in s.threads && ThreadOk(s, g, u) && ScanCovers(s.(scan := scan), s.threads[u])
    ensures ThreadOk(s.(scan := scan), g, u)
  {
    hide ScanCovers;
  }

  lemma ScanStartKeeps(s: State, g: Aux, who: Option<Thread>)
    requires Inv(s, g) && Enabled(s, ScanStart(who))
    ensures Inv(StartScan(s, who), g)
  {
    hide Inv;
    var s' := s.(scan := Scan(|s.records|, {}, who));
    ScanOpens(s, g, who);
    if who.Some? {
      MoveCollectorKeeps(s', g, who.value, DScan);
    }
  }

  /** A thread moves on in the code of a collection. */
  lemma MoveCollectorKeeps(s: State, g: Aux, t: Thread, pc: Pc)
    requires Inv(s, g) && t in s.threads
    requires (s.threads[t].pc == DCollect && pc == DScan) || (s.threads[t].pc == DScan && pc == DCount)
    ensures Inv(Set(s, t, s.threads[t].(pc := pc)), g)
  {
    hide ChainOk, PlacesOk, ThreadOk;
    CollectorOk(s, g, t, pc);
    LocalStep(s, g, t, s.threads[t].(pc := pc));
  }

  lemma CollectorOk(s: State, g: Aux, t: Thread, pc: Pc)
    requires t in s.threads && ThreadOk(s, g, t)
    requires (s.threads[t].pc == DCollect && pc == DScan) || (s.threads[t].pc == DScan && pc == DCount)
    ensures ThreadOk(Set(s, t, s.threads[t].(pc := pc)), g, t)
  {
  }

  lemma ScanOpens(s: State, g: Aux, who: Option<Thread>)
    requires Inv(s, g) && s.scan.NoScan?
    ensures Inv(s.(scan := Scan(|s.records|, {}, who)), g)
  {
    hide ChainOk, PlacesOk;
    var scan := Scan(|s.records|, {}, who);
    forall u | u in s.threads
      ensures ScanCovers(s.(scan := scan), s.threads[u])
    {
      assert ThreadOk(s, g, u);
    }
    ScanFrame(s, g, scan);
  }

  lemma ScanEndKeeps(s: State, g: Aux)
    requires Inv(s, g) && Enabled(s, ScanEnd)
    ensures Inv(EndScan(s), g)
  {
    hide ChainOk, PlacesOk, ThreadOk;
    ScanFrame(s, g, NoScan);
    hide Inv;
    if s.scan.who.Some? {
      MoveCollectorKeeps(s.(scan := NoScan), g, s.scan.who.value, DCount);
    }
  }

  lemma ReadRecordKeeps(s: State, g: Aux)
    requires Inv(s, g) && s.scan.Scan? && 0 < s.scan.cursor <= |s.records|
    ensures Inv(ReadRecord(s), g)
  {
    hide ChainOk, PlacesOk, ThreadOk, ScanCovers;
    var scan := ReadRecord(s).scan;
    forall u | u in s.threads
      ensures ScanCovers(s.(scan := scan), s.threads[u])
    {
      ReadRecordCovers(s, g, u);
    }
    ScanFrame(s, g, scan);
  }

  /** The record just read holds whatever its owner has validated. */
  lemma ReadRecordCovers(s: State, g: Aux, u: Thread)
    requires ChainOk(s, g) && u in s.threads && ThreadOk(s, g, u)
    requires s.scan.Scan? && 0 < s.scan.cursor <= |s.records|
    ensures ScanCovers(ReadRecord(s), s.threads[u])
  {
    hide ChainOk, ReadRecord, Successor;
    var l := s.threads[u];
    if HoldsTail(l.pc) {
      LiveNode(s, g, l.tail);
      ReadCovers(s, l.rec, l.tail);
    }
    if HoldsHead(l.pc) {
      LiveNode(s, g, l.head);
      ReadCovers(s, l.rec, l.head);
    }
    if HoldsNext(l.pc) {
      LiveNode(s, g, l.next);
      ReadCovers(s, l.rec2, l.next);
    }
  }

  lemma ReadCovers(s: State, r: nat, n: Node)
    requires s.scan.Scan? && 0 < s.scan.cursor <= |s.records|
    requires Covered(s, r, n) && r < |s.records| && s.records[r].slot == n && n != NULL
    ensures Covered(ReadRecord(s), r, n)
  {
  }

  /** A retired node that a finished scan did not find is held by nobody. */
  lemma ReclaimSafe(s: State, g: Aux, n: Node, u: Thread)
    requires Inv(s, g) && u in s.threads
    requires s.scan.Scan? && s.scan.cursor == 0 && n in s.retired && n !in s.scan.hazards
    ensures !Holds(s.threads[u], n)
  {
    hide ChainOk, PlacesOk;
    assert ThreadOk(s, g, u);
  }

  lemma ReclaimKeeps(s: State, g: Aux, n: Node, link: Node)
    requires Inv(s, g) && s.scan.Scan? && s.scan.cursor == 0 && n in s.retired && n !in s.scan.hazards
    ensures Inv(Reclaim(s, n, link), g.(pos := g.pos - {n}))
  {
    hide ChainOk, PlacesOk, ThreadOk, Rely, Holds;
    var s', g' := Reclaim(s, n, link), g.(pos := g.pos - {n});
    ReclaimChain(s, g, n, link);
    ReclaimPlaces(s, g, n, link);
    forall u | u in s'.threads
      ensures ThreadOk(s', g', u)
    {
      ReclaimSafe(s, g, n, u);
      RetiredBeforeHead(s, g, n);
      ReclaimRely(s, g, n, link, u);
      AssembleThread(s, g, s', g', u);
    }
  }

  lemma ReclaimChain(s: State, g: Aux, n: Node, link: Node)
    requires ChainOk(s, g) && PlacesOk(s, g) && n in s.retired
    ensures ChainOk(Reclaim(s, n, link), g.(pos := g.pos - {n}))
  {
    hide PlacesOk, PosOk, NextOk, DataOk;
    RetiredBeforeHead(s, g, n);
    ReclaimPos(g, n);
    ReclaimNext(s.next, g, n, link);
    ReclaimData(s.data, g, n);
  }

  lemma ReclaimPos(g: Aux, n: Node)
    requires PosOk(g.hist, g.pos, g.headPos) && n in g.pos && g.pos[n] < g.headPos
    ensures PosOk(g.hist, g.pos - {n}, g.headPos)
  {
  }

  lemma ReclaimNext(next: map<Node, Node>, g: Aux, n: Node, link: Node)
    requires NextOk(next, g.hist, g.pos)
    ensures NextOk(next[n := link], g.hist, g.pos - {n})
  {
    forall k | k in g.pos && k != n
      ensures next[k] == Follower(g.hist, g.pos - {n}, k)
    {
      assert next[k] == Follower(g.hist, g.pos, k);
    }
  }

  lemma ReclaimData(data: map<Node, Option<Job>>, g: Aux, n: Node)
    requires PosOk(g.hist, g.pos, g.headPos) && n in g.pos && g.pos[n] < g.headPos
    requires DataOk(data, g.hist, g.jobs, g.headPos)
    ensures DataOk(data[n := None], g.hist, g.jobs, g.headPos)
  {
  }

  lemma RetiredBeforeHead(s: State, g: Aux, n: Node)
    requires PlacesOk(s, g) && n in s.retired
    ensures n in g.pos && g.pos[n] < g.headPos && n !in g.owned && n in s.next
  {
  }

  lemma ReclaimPlaces(s: State, g: Aux, n: Node, link: Node)
    requires PlacesOk(s, g) && n in s.retired
    ensures PlacesOk(Reclaim(s, n, link), g.(pos := g.pos - {n}))
  {
    RetiredBeforeHead(s, g, n);
  }

  lemma ReclaimRely(s: State, g: Aux, n: Node, link: Node, u: Thread)
    requires u in s.threads && n !in g.owned && !Holds(s.threads[u], n)
    ensures Rely(s, g, Reclaim(s, n, link), g.(pos := g.pos - {n}), u)
  {
  }
}
