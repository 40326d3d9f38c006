/** The steps that move a node from one place to another keep the invariant. */
module LockFreeQueueUpdates {
  import opened LockFreeQueue
  import opened Wrappers
  import opened LockFreeQueueInvariant
  import opened LockFreeQueueSteps

  // ---------------------------------------------------------------- linking a node

  lemma LinkKeeps(s: State, g: Aux, t: Thread)
    requires Inv(s, g) && t in s.threads && s.threads[t].pc == ELink && s.threads[t].tail in s.next
    requires s.next[s.threads[t].tail] == NULL
    ensures Inv(Link(s, t, false), AuxLink(g, s.threads[t]))
  {
    hide ChainOk, PlacesOk, ThreadOk, Rely, Relied;
    var l := s.threads[t];
    var s', g' := Link(s, t, false), AuxLink(g, l);
    LinkFacts(s, g, t);
    ChainParts(s, g);
    LinkChain(s, g, t);
    LinkPlaces(s, g, t);
    LinkOwn(s, g, t);
    LinkRely(s, g, t);
    Assemble(s, g, s', g', t);
  }

  /** The node linked to is the last of the chain and `tail` points to it. */
  lemma LinkFacts(s: State, g: Aux, t: Thread)
    requires ChainOk(s, g) && PlacesOk(s, g) && t in s.threads && ThreadOk(s, g, t)
    requires s.threads[t].pc == ELink && s.threads[t].tail in s.next && s.next[s.threads[t].tail] == NULL
    ensures s.threads[t].tail in g.pos && g.pos[s.threads[t].tail] == |g.hist| - 1
    ensures g.tailPos == |g.hist| - 1
    ensures s.threads[t].node in g.owned && s.threads[t].node !in g.pos && s.threads[t].node in s.next
    ensures s.threads[t].node in s.data && s.data[s.threads[t].node] == Some(s.threads[t].job)
    ensures s.next[s.threads[t].node] == NULL && s.threads[t].node != NULL
    ensures g.owned[s.threads[t].node] == t
  {
    hide ChainOk;
    LiveNode(s, g, s.threads[t].tail);
    LinkLength(s, g);
  }

  lemma LinkLength(s: State, g: Aux)
    requires ChainOk(s, g)
    ensures g.headPos <= g.tailPos < |g.hist| == |g.jobs|
  {
  }

  lemma LinkChain(s: State, g: Aux, t: Thread)
    requires ChainOk(s, g) && t in s.threads && s.threads[t].tail in s.next
    requires s.next[s.threads[t].tail] == NULL
    requires s.threads[t].tail in g.pos && g.pos[s.threads[t].tail] == |g.hist| - 1 == g.tailPos
    requires s.threads[t].node !in g.pos && s.threads[t].node in s.next && s.threads[t].node in s.data
    requires s.next[s.threads[t].node] == NULL && s.threads[t].node != NULL
    requires s.data[s.threads[t].node] == Some(s.threads[t].job)
    ensures ChainOk(Link(s, t, false), AuxLink(g, s.threads[t]))
  {
    var l := s.threads[t];
    var g' := AuxLink(g, l);
    hide ChainOk;
    LinkPos(s, g, l.node);
    LinkNext(s, g, l.tail, l.node);
    LinkData(s, g, l.node, l.job);
    ChainParts(s, g);
    ChainWhole(Link(s, t, false), g');
  }

  lemma ChainParts(s: State, g: Aux)
    requires ChainOk(s, g)
    ensures g.headPos <= g.tailPos < |g.hist| <= g.tailPos + 2 && |g.hist| == |g.jobs|
    ensures s.head == g.hist[g.headPos] && s.tail == g.hist[g.tailPos]
  {
  }

  lemma ChainWhole(s: State, g: Aux)
    requires g.headPos <= g.tailPos < |g.hist| <= g.tailPos + 2
    requires s.head == g.hist[g.headPos] && s.tail == g.hist[g.tailPos]
    requires PosOk(g.hist, g.pos, g.headPos) && NextOk(s.next, g.hist, g.pos)
    requires DataOk(s.data, g.hist, g.jobs, g.headPos)
    ensures ChainOk(s, g)
  {
  }

  lemma LinkPos(s: State, g: Aux, n: Node)
    requires ChainOk(s, g) && n !in g.pos && n != NULL
    ensures PosOk(g.hist + [n], g.pos[n := |g.hist|], g.headPos)
  {
    hide NextOk, DataOk;
  }

  lemma LinkNext(s: State, g: Aux, m: Node, n: Node)
    requires ChainOk(s, g) && m in g.pos && g.pos[m] == |g.hist| - 1
    requires n !in g.pos && n in s.next && s.next[n] == NULL
    ensures NextOk(s.next[m := n], g.hist + [n], g.pos[n := |g.hist|])
  {
    hide DataOk;
    var hist, pos, next := g.hist + [n], g.pos[n := |g.hist|], s.next[m := n];
    forall k | k in pos
      ensures next[k] == Follower(hist, pos, k)
    {
      if k != n && k != m {
        assert s.next[k] == Follower(g.hist, g.pos, k);
        assert g.hist[g.pos[k]] == k && g.hist[g.pos[m]] == m;
      }
    }
  }

  lemma LinkData(s: State, g: Aux, n: Node, job: Job)
    requires ChainOk(s, g) && n in s.data && s.data[n] == Some(job)
    ensures DataOk(s.data, g.hist + [n], g.jobs + [job], g.headPos)
  {
    hide PosOk, NextOk;
    var jobs, hist := g.jobs + [job], g.hist + [n];
    forall i | g.headPos < i < |hist|
      ensures hist[i] in s.data && s.data[hist[i]] == Some(jobs[i])
    {
      if i < |g.hist| {
        assert s.data[g.hist[i]] == Some(g.jobs[i]);
      }
    }
  }

  lemma LinkPlaces(s: State, g: Aux, t: Thread)
    requires PlacesOk(s, g) && t in s.threads && s.threads[t].pc == ELink && s.threads[t].tail in s.next
    requires s.next[s.threads[t].tail] == NULL && g.headPos < |g.hist|
    requires s.threads[t].node in g.owned && g.owned[s.threads[t].node] == t
    ensures PlacesOk(Link(s, t, false), AuxLink(g, s.threads[t]))
  {
  }

  lemma LinkOwn(s: State, g: Aux, t: Thread)
    requires t in s.threads && ThreadOk(s, g, t) && s.threads[t].pc == ELink && s.threads[t].tail in s.next
    requires s.next[s.threads[t].tail] == NULL
    requires s.threads[t].tail in g.pos && g.pos[s.threads[t].tail] == |g.hist| - 1
    requires s.threads[t].node !in g.pos && s.threads[t].node != NULL
    ensures ThreadOk(Link(s, t, false), AuxLink(g, s.threads[t]), t)
  {
  }

  lemma LinkRely(s: State, g: Aux, t: Thread)
    requires PlacesOk(s, g) && t in s.threads && s.threads[t].tail in s.next && s.next[s.threads[t].tail] == NULL
    requires s.threads[t].tail in g.pos
    requires s.threads[t].node in g.owned && g.owned[s.threads[t].node] == t
    ensures Relied(s, g, Link(s, t, false), AuxLink(g, s.threads[t]), t)
  {
    var l := s.threads[t];
    var s', g' := Link(s, t, false), AuxLink(g, l);
    assert l.node !in g.pos;
    forall u | u in s.threads && u != t
      ensures Rely(s, g, s', g', u)
    {
      assert g'.hist[..|g.hist|] == g.hist;
    }
  }

  // ---------------------------------------------------------------- unlinking a node

  lemma SwingHeadKeeps(s: State, g: Aux, t: Thread)
    requires Inv(s, g) && t in s.threads && s.threads[t].pc == DSwing && s.head == s.threads[t].head
    ensures g.headPos + 1 < |g.jobs|
    ensures Inv(SwingHead(s, t, false), AuxSwing(g, t, s.threads[t]))
  {
    hide ChainOk, PlacesOk, ThreadOk, Rely, Relied;
    var l := s.threads[t];
    SwingFacts(s, g, t);
    ChainParts(s, g);
    var s', g' := SwingHead(s, t, false), AuxSwing(g, t, l);
    SwingChain(s, g, t);
    SwingPlaces(s, g, t);
    SwingOwn(s, g, t);
    SwingRely(s, g, t);
    Assemble(s, g, s', g', t);
  }

  lemma SwingFacts(s: State, g: Aux, t: Thread)
    requires ChainOk(s, g) && t in s.threads && ThreadOk(s, g, t)
    requires s.threads[t].pc == DSwing && s.head == s.threads[t].head
    ensures s.head in g.pos && g.pos[s.head] == g.headPos && g.headPos < g.tailPos
    ensures s.threads[t].next in g.pos && g.pos[s.threads[t].next] == g.headPos + 1
    ensures g.headPos + 1 < |g.hist| && s.threads[t].next == g.hist[g.headPos + 1]
    ensures g.headPos + 1 < |g.jobs|
    ensures s.threads[t].next in s.data && s.data[s.threads[t].next] == Some(g.jobs[g.headPos + 1])
  {
    hide ChainOk;
    LiveTail(s, g);
    LiveNode(s, g, s.head);
    ChainParts(s, g);
    LiveData(s, g, g.headPos + 1);
  }

  lemma LiveData(s: State, g: Aux, i: nat)
    requires ChainOk(s, g) && g.headPos < i < |g.hist|
    ensures |g.hist| == |g.jobs| && g.hist[i] in s.data && s.data[g.hist[i]] == Some(g.jobs[i])
  {
    hide PosOk, NextOk;
  }

  lemma SwingChain(s: State, g: Aux, t: Thread)
    requires ChainOk(s, g) && t in s.threads && s.head == s.threads[t].head
    requires g.headPos < g.tailPos && g.headPos + 1 < |g.hist| && s.threads[t].next == g.hist[g.headPos + 1]
    ensures ChainOk(SwingHead(s, t, false), AuxSwing(g, t, s.threads[t]))
  {
    hide NextOk;
    SwingData(s, g);
  }

  lemma SwingData(s: State, g: Aux)
    requires DataOk(s.data, g.hist, g.jobs, g.headPos)
    ensures DataOk(s.data, g.hist, g.jobs, g.headPos + 1)
  {
  }

  lemma OnlyHeadThere(s: State, g: Aux)
    requires ChainOk(s, g)
    ensures forall n :: n in g.pos && g.pos[n] == g.headPos ==> n == s.head
  {
    hide NextOk, DataOk;
  }

  lemma SwingPlaces(s: State, g: Aux, t: Thread)
    requires ChainOk(s, g) && PlacesOk(s, g) && t in s.threads && s.head == s.threads[t].head
    requires s.threads[t].pc == DSwing && g.headPos + 1 < |g.jobs|
    requires s.head in g.pos && g.pos[s.head] == g.headPos
    ensures PlacesOk(SwingHead(s, t, false), AuxSwing(g, t, s.threads[t]))
  {
    hide ChainOk;
    OnlyHeadThere(s, g);
  }

  lemma SwingRecords(s: State, g: Aux, t: Thread)
    requires t in s.threads && RecordsOk(s, g, t, s.threads[t]) && s.threads[t].pc == DSwing
    requires s.head == s.threads[t].head
    ensures RecordsOk(SwingHead(s, t, false), AuxSwing(g, t, s.threads[t]), t, SwingHead(s, t, false).threads[t])
  {
  }

  lemma SwingDequeueOk(s: State, g: Aux, t: Thread)
    requires t in s.threads && s.threads[t].pc == DSwing && s.head == s.threads[t].head
    requires RecordsOk(s, g, t, s.threads[t]) && DequeueOk(s, g, t, s.threads[t])
    requires s.head in g.pos && g.pos[s.head] == g.headPos && g.headPos + 1 < |g.jobs|
    requires s.threads[t].next in s.data && s.data[s.threads[t].next] == Some(g.jobs[g.headPos + 1])
    requires RecordsOk(SwingHead(s, t, false), AuxSwing(g, t, s.threads[t]), t, SwingHead(s, t, false).threads[t])
    ensures DequeueOk(SwingHead(s, t, false), AuxSwing(g, t, s.threads[t]), t, SwingHead(s, t, false).threads[t])
  {
    hide RecordsOk;
  }

  lemma SwingOwn(s: State, g: Aux, t: Thread)
    requires t in s.threads && ThreadOk(s, g, t) && s.threads[t].pc == DSwing && s.head == s.threads[t].head
    requires s.head in g.pos && g.pos[s.head] == g.headPos && g.headPos + 1 < |g.jobs|
    requires s.threads[t].next in s.data && s.data[s.threads[t].next] == Some(g.jobs[g.headPos + 1])
    ensures ThreadOk(SwingHead(s, t, false), AuxSwing(g, t, s.threads[t]), t)
  {
    hide DequeueOk, RecordsOk;
    SwingRecords(s, g, t);
    SwingDequeueOk(s, g, t);
  }

  lemma SwingRely(s: State, g: Aux, t: Thread)
    requires PlacesOk(s, g) && t in s.threads && s.head == s.threads[t].head && g.headPos + 1 < |g.jobs|
    requires s.head in g.pos && g.pos[s.head] == g.headPos
    ensures Relied(s, g, SwingHead(s, t, false), AuxSwing(g, t, s.threads[t]), t)
  {
    var s', g' := SwingHead(s, t, false), AuxSwing(g, t, s.threads[t]);
    assert s.head !in g.limbo;
    forall u | u in s.threads && u != t
      ensures Rely(s, g, s', g', u)
    {
    }
  }

  // ---------------------------------------------------------------- taking the job out

  lemma TakeKeeps(s: State, g: Aux, t: Thread)
    requires Inv(s, g) && t in s.threads && s.threads[t].pc == DTake && s.threads[t].next in s.next
    ensures Inv(Take(s, t), g)
  {
    hide ChainOk, PlacesOk, ThreadOk, Rely, Relied;
    var s' := Take(s, t);
    TakeChain(s, g, t);
    TakePlaces(s, g, t);
    TakeOwn(s, g, t);
    TakeRely(s, g, t);
    Assemble(s, g, s', g, t);
  }

  lemma TakeChain(s: State, g: Aux, t: Thread)
    requires ChainOk(s, g) && t in s.threads && ThreadOk(s, g, t)
    requires s.threads[t].pc == DTake && s.threads[t].next in s.next
    ensures ChainOk(Take(s, t), g)
  {
    hide NextOk, ScanCovers, EnqueueOk;
    var s', n := Take(s, t), s.threads[t].next;
    assert n in g.pos && g.pos[n] <= g.headPos;
    assert DataOk(s'.data, g.hist, g.jobs, g.headPos);
  }

  lemma TakePlaces(s: State, g: Aux, t: Thread)
    requires PlacesOk(s, g) && t in s.threads && s.threads[t].pc == DTake && s.threads[t].next in s.next
    ensures PlacesOk(Take(s, t), g)
  {
    var l' := Take(s, t).threads[t];
    PlacesLocal(s, g, t, l');
    PlacesFrame(Set(s, t, l'), g, Take(s, t), g);
  }

  lemma TakeOwn(s: State, g: Aux, t: Thread)
    requires t in s.threads && ThreadOk(s, g, t) && s.threads[t].pc == DTake && s.threads[t].next in s.next
    ensures ThreadOk(Take(s, t), g, t)
  {
  }

  lemma TakeRely(s: State, g: Aux, t: Thread)
    requires Inv(s, g) && t in s.threads && s.threads[t].pc == DTake && s.threads[t].next in s.next
    ensures Relied(s, g, Take(s, t), g, t)
  {
    hide ChainOk, PlacesOk, ThreadOk, Rely;
    forall u | u in s.threads && u != t
      ensures Rely(s, g, Take(s, t), g, u)
    {
      TakeRelyOne(s, g, t, u);
    }
  }

  lemma TakeRelyOne(s: State, g: Aux, t: Thread, u: Thread)
    requires ChainOk(s, g) && PlacesOk(s, g) && t in s.threads && u in s.threads && u != t
    requires ThreadOk(s, g, t) && ThreadOk(s, g, u)
    requires s.threads[t].pc == DTake && s.threads[t].next in s.next
    ensures Rely(s, g, Take(s, t), g, u)
  {
    hide ThreadOk, PlacesOk, ChainOk;
    TakesLive(s, g, t);
    TakeOutside(s, g, s.threads[t].next);
    if s.threads[u].pc == DTake {
      DistinctTakes(s, g, t, u);
    }
  }

  lemma TakesLive(s: State, g: Aux, t: Thread)
    requires t in s.threads && ThreadOk(s, g, t)
    ensures s.threads[t].pc == DTake ==> s.threads[t].next in g.pos
  {
    hide EnqueueOk, ScanCovers;
  }

  lemma TakeOutside(s: State, g: Aux, n: Node)
    requires PlacesOk(s, g) && n in g.pos
    ensures n !in g.owned
  {
  }

  /** Two dequeuers never take from the same node. */
  lemma DistinctTakes(s: State, g: Aux, t: Thread, u: Thread)
    requires ChainOk(s, g) && t in s.threads && u in s.threads && u != t
    requires ThreadOk(s, g, t) && ThreadOk(s, g, u)
    requires s.threads[t].pc == DTake && s.threads[u].pc == DTake
    ensures s.threads[t].next != s.threads[u].next
  {
    hide NextOk, DataOk, EnqueueOk, ScanCovers;
    assert g.hist[g.pos[s.threads[t].head]] == s.threads[t].head;
    assert g.hist[g.pos[s.threads[u].head]] == s.threads[u].head;
  }

  // ---------------------------------------------------------------- retiring a node

  lemma RetireKeeps(s: State, g: Aux, t: Thread)
    requires Inv(s, g) && t in s.threads && s.threads[t].pc == DRetire && s.scan.NoScan?
    ensures Inv(Retire(s, t), g.(limbo := g.limbo - {s.threads[t].head}))
  {
    hide ChainOk, PlacesOk, ThreadOk, Rely, Relied;
    var s', g' := Retire(s, t), g.(limbo := g.limbo - {s.threads[t].head});
    ChainFrame(s, g, s', g');
    RetirePlaces(s, g, t);
    RetireOwn(s, g, t);
    RetireRely(s, g, t);
    Assemble(s, g, s', g', t);
  }

  lemma RetirePlaces(s: State, g: Aux, t: Thread)
    requires PlacesOk(s, g) && t in s.threads && ThreadOk(s, g, t) && s.threads[t].pc == DRetire && s.scan.NoScan?
    ensures PlacesOk(Retire(s, t), g.(limbo := g.limbo - {s.threads[t].head}))
  {
    hide EnqueueOk, ScanCovers;
  }

  lemma RetireOwn(s: State, g: Aux, t: Thread)
    requires t in s.threads && ThreadOk(s, g, t) && s.threads[t].pc == DRetire && s.scan.NoScan?
    ensures ThreadOk(Retire(s, t), g.(limbo := g.limbo - {s.threads[t].head}), t)
  {
  }

  lemma RetireRely(s: State, g: Aux, t: Thread)
    requires t in s.threads && ThreadOk(s, g, t) && s.threads[t].pc == DRetire
    ensures Relied(s, g, Retire(s, t), g.(limbo := g.limbo - {s.threads[t].head}), t)
  {
    hide EnqueueOk, ScanCovers, RecordsOk;
    var s', g' := Retire(s, t), g.(limbo := g.limbo - {s.threads[t].head});
    forall u | u in s.threads && u != t
      ensures Rely(s, g, s', g', u)
    {
    }
  }

  // ---------------------------------------------------------------- guards

  /** Giving back a record that `t` owns. */
  lemma ReleaseKeeps(s: State, g: Aux, t: Thread, r: nat, l': Local)
    requires Inv(s, g) && t in s.threads
    requires r in g.owner && g.owner[r] == t && KeepsPlaces(s.threads[t], l')
    requires ThreadOk(Set(Release(s, r), t, l'), g.(owner := g.owner - {r}), t)
    ensures Inv(Set(Release(s, r), t, l'), g.(owner := g.owner - {r}))
  {
    hide ChainOk, PlacesOk, ThreadOk, Rely, Relied, KeepsPlaces;
    var s', g' := Set(Release(s, r), t, l'), g.(owner := g.owner - {r});
    ChainFrame(s, g, s', g');
    PlacesLocal(s, g, t, l');
    ReleasePlaces(Set(s, t, l'), g, r);
    ReleaseRely(s, g, t, r, l');
    assert s' == Release(Set(s, t, l'), r);
    Assemble(s, g, s', g', t);
  }

  lemma ReleasePlaces(s: State, g: Aux, r: nat)
    requires PlacesOk(s, g)
    ensures PlacesOk(Release(s, r), g.(owner := g.owner - {r}))
  {
  }

  lemma ReleaseRely(s: State, g: Aux, t: Thread, r: nat, l': Local)
    requires t in s.threads && r in g.owner && g.owner[r] == t
    ensures Relied(s, g, Set(Release(s, r), t, l'), g.(owner := g.owner - {r}), t)
  {
  }

  lemma ReleaseTailKeeps(s: State, g: Aux, t: Thread)
    requires Inv(s, g) && t in s.threads && s.threads[t].pc == ERelease
    ensures Inv(ReleaseTail(s, t), g.(owner := g.owner - {s.threads[t].rec}))
  {
    hide ChainOk, PlacesOk, ThreadOk, KeepsPlaces;
    ReleaseTailOwn(s, g, t);
    ReleaseKeeps(s, g, t, s.threads[t].rec, s.threads[t].(pc := Idle));
  }

  lemma ReleaseTailOwn(s: State, g: Aux, t: Thread)
    requires t in s.threads && ThreadOk(s, g, t) && s.threads[t].pc == ERelease
    ensures s.threads[t].rec in g.owner && g.owner[s.threads[t].rec] == t
    ensures KeepsPlaces(s.threads[t], s.threads[t].(pc := Idle))
    ensures ThreadOk(ReleaseTail(s, t), g.(owner := g.owner - {s.threads[t].rec}), t)
  {
  }

  lemma ReleaseNextKeeps(s: State, g: Aux, t: Thread)
    requires Inv(s, g) && t in s.threads && s.threads[t].pc == DReleaseNext
    ensures Inv(ReleaseNext(s, t), g.(owner := g.owner - {s.threads[t].rec2}))
  {
    hide ChainOk, PlacesOk, ThreadOk, KeepsPlaces;
    ReleaseNextOwn(s, g, t);
    ReleaseKeeps(s, g, t, s.threads[t].rec2, s.threads[t].(pc := DReleaseHead));
  }

  lemma ReleaseNextOwn(s: State, g: Aux, t: Thread)
    requires t in s.threads && ThreadOk(s, g, t) && s.threads[t].pc == DReleaseNext
    ensures s.threads[t].rec2 in g.owner && g.owner[s.threads[t].rec2] == t
    ensures KeepsPlaces(s.threads[t], s.threads[t].(pc := DReleaseHead))
    ensures ThreadOk(ReleaseNext(s, t), g.(owner := g.owner - {s.threads[t].rec2}), t)
  {
  }

  lemma ReleaseHeadKeeps(s: State, g: Aux, t: Thread)
    requires Inv(s, g) && t in s.threads && s.threads[t].pc == DReleaseHead
    ensures Inv(ReleaseHead(s, t), g.(owner := g.owner - {s.threads[t].rec}))
  {
    hide ChainOk, PlacesOk, ThreadOk, KeepsPlaces;
    ReleaseHeadOwn(s, g, t);
    ReleaseKeeps(s, g, t, s.threads[t].rec, s.threads[t].(pc := Idle));
  }

  lemma ReleaseHeadOwn(s: State, g: Aux, t: Thread)
    requires t in s.threads && ThreadOk(s, g, t) && s.threads[t].pc == DReleaseHead
    ensures s.threads[t].rec in g.owner && g.owner[s.threads[t].rec] == t
    ensures KeepsPlaces(s.threads[t], s.threads[t].(pc := Idle))
    ensures ThreadOk(ReleaseHead(s, t), g.(owner := g.owner - {s.threads[t].rec}), t)
  {
    hide EnqueueOk, DequeueOk, ScanCovers;
    QuietOk(ReleaseHead(s, t), g.(owner := g.owner - {s.threads[t].rec}), t);
  }

  lemma ClaimKeeps(s: State, g: Aux, t: Thread, r: nat)
    requires Inv(s, g) && t in s.threads && Claiming(s.threads[t].pc)
    requires r <= |s.records| && (r < |s.records| ==> !s.records[r].active)
    ensures Inv(ClaimStep(s, t, r), g.(owner := g.owner[r := t]))
  {
    hide ChainOk, PlacesOk, ThreadOk, Rely, Relied, KeepsPlaces;
    var s', g' := ClaimStep(s, t, r), g.(owner := g.owner[r := t]);
    var l' := s'.threads[t];
    ChainFrame(s, g, s', g');
    ClaimOwn(s, g, t, r);
    PlacesLocal(s, g, t, l');
    ClaimPlaces(Set(s, t, l'), g, t, r, s'.records);
    ClaimRely(s, g, t, r);
    assert s' == Set(s, t, l').(records := s'.records);
    Assemble(s, g, s', g', t);
  }

  /** A thread that holds nothing but its records. */
  lemma QuietOk(s: State, g: Aux, t: Thread)
    requires t in s.threads && s.threads[t].pc in {Idle, DGuardNext, DLoadHead}
    requires RecordsOk(s, g, t, s.threads[t])
    ensures ThreadOk(s, g, t)
  {
  }

  lemma ClaimRecords(s: State, g: Aux, t: Thread, r: nat)
    requires t in s.threads && RecordsOk(s, g, t, s.threads[t]) && Claiming(s.threads[t].pc)
    requires r <= |s.records| && (r < |s.records| ==> !s.records[r].active)
    ensures RecordsOk(ClaimStep(s, t, r), g.(owner := g.owner[r := t]), t, ClaimStep(s, t, r).threads[t])
    ensures KeepsPlaces(s.threads[t], ClaimStep(s, t, r).threads[t])
  {
  }

  lemma ClaimTailOwn(s: State, g: Aux, t: Thread, r: nat)
    requires t in s.threads && ThreadOk(s, g, t) && s.threads[t].pc == EGuard
    requires r <= |s.records| && (r < |s.records| ==> !s.records[r].active)
    requires RecordsOk(ClaimStep(s, t, r), g.(owner := g.owner[r := t]), t, ClaimStep(s, t, r).threads[t])
    ensures ThreadOk(ClaimStep(s, t, r), g.(owner := g.owner[r := t]), t)
  {
    hide RecordsOk;
  }

  lemma ClaimOwn(s: State, g: Aux, t: Thread, r: nat)
    requires t in s.threads && ThreadOk(s, g, t) && Claiming(s.threads[t].pc)
    requires r <= |s.records| && (r < |s.records| ==> !s.records[r].active)
    ensures ThreadOk(ClaimStep(s, t, r), g.(owner := g.owner[r := t]), t)
    ensures KeepsPlaces(s.threads[t], ClaimStep(s, t, r).threads[t])
  {
    hide RecordsOk, EnqueueOk, DequeueOk, ScanCovers;
    ClaimRecords(s, g, t, r);
    if s.threads[t].pc == EGuard {
      ClaimTailOwn(s, g, t, r);
    } else {
      QuietOk(ClaimStep(s, t, r), g.(owner := g.owner[r := t]), t);
    }
  }

  lemma ClaimPlaces(s: State, g: Aux, t: Thread, r: nat, records: seq<Record>)
    requires PlacesOk(s, g) && r < |records| && |s.records| <= |records| && records[r].active
    requires forall k :: 0 <= k < |s.records| && k != r ==> records[k] == s.records[k]
    ensures PlacesOk(s.(records := records), g.(owner := g.owner[r := t]))
  {
  }

  lemma ClaimRely(s: State, g: Aux, t: Thread, r: nat)
    requires PlacesOk(s, g) && t in s.threads
    requires r <= |s.records| && (r < |s.records| ==> !s.records[r].active)
    ensures Relied(s, g, ClaimStep(s, t, r), g.(owner := g.owner[r := t]), t)
  {
    var s', g' := ClaimStep(s, t, r), g.(owner := g.owner[r := t]);
    assert r !in g.owner;
    forall u | u in s.threads && u != t
      ensures Rely(s, g, s', g', u)
    {
    }
  }

  // ---------------------------------------------------------------- starting and giving up

  lemma StartEnqueueKeeps(s: State, g: Aux, t: Thread, job: Job, n: Node)
    requires Inv(s, g) && t in s.threads && s.threads[t].pc == Idle
    requires n != NULL && (n in s.free || n !in s.next)
    ensures Inv(StartEnqueueStep(s, t, Some(job), n), g.(owned := g.owned[n := t]))
  {
    hide ChainOk, PlacesOk, ThreadOk, Rely, Relied;
    var s', g' := StartEnqueueStep(s, t, Some(job), n), g.(owned := g.owned[n := t]);
    NodeOutside(s, g, n);
    FieldsChain(s, g, n, NULL, Some(job));
    ChainFrame(s.(next := s.next[n := NULL], data := s.data[n := Some(job)]), g, s', g');
    StartPlaces(s, g, t, job, n);
    StartOwn(s, g, t, job, n);
    StartRely(s, g, t, job, n);
    Assemble(s, g, s', g', t);
  }

  lemma NodeOutside(s: State, g: Aux, n: Node)
    requires PlacesOk(s, g) && (n in s.free || n !in s.next)
    ensures n !in g.pos && n !in g.owned
  {
  }

  /** Writing the fields of a node that is not live does not touch the chain. */
  lemma FieldsChain(s: State, g: Aux, n: Node, next: Node, data: Option<Job>)
    requires ChainOk(s, g) && n !in g.pos
    ensures ChainOk(s.(next := s.next[n := next], data := s.data[n := data]), g)
  {
    var s' := s.(next := s.next[n := next], data := s.data[n := data]);
    assert NextOk(s'.next, g.hist, g.pos) by { hide DataOk, PosOk; }
    assert DataOk(s'.data, g.hist, g.jobs, g.headPos) by { hide NextOk; }
  }

  lemma StartPlaces(s: State, g: Aux, t: Thread, job: Job, n: Node)
    requires PlacesOk(s, g) && t in s.threads && s.threads[t].pc == Idle
    requires n != NULL && (n in s.free || n !in s.next)
    ensures PlacesOk(StartEnqueueStep(s, t, Some(job), n), g.(owned := g.owned[n := t]))
  {
    NodeOutside(s, g, n);
  }

  lemma StartOwn(s: State, g: Aux, t: Thread, job: Job, n: Node)
    requires t in s.threads && ThreadOk(s, g, t) && s.threads[t].pc == Idle
    ensures ThreadOk(StartEnqueueStep(s, t, Some(job), n), g.(owned := g.owned[n := t]), t)
  {
  }

  lemma StartRely(s: State, g: Aux, t: Thread, job: Job, n: Node)
    requires Inv(s, g) && t in s.threads && n !in g.pos && n !in g.owned
    ensures Relied(s, g, StartEnqueueStep(s, t, Some(job), n), g.(owned := g.owned[n := t]), t)
  {
    hide ChainOk, PlacesOk, ThreadOk;
    var s', g' := StartEnqueueStep(s, t, Some(job), n), g.(owned := g.owned[n := t]);
    forall u | u in s.threads && u != t
      ensures Rely(s, g, s', g', u)
    {
      TakesLive(s, g, u);
    }
  }

  lemma StartNullKeeps(s: State, g: Aux, t: Thread)
    requires Inv(s, g) && t in s.threads && s.threads[t].pc == Idle
    ensures Inv(StartEnqueueStep(s, t, None, NULL), g)
  {
    hide ChainOk, PlacesOk;
    assert ThreadOk(s, g, t);
    var l' := Begin(s.threads[t]).(outcome := InvalidArgument);
    assert ThreadOk(Set(s, t, l'), g, t);
    LocalStep(s, g, t, l');
  }

  lemma StartDequeueKeeps(s: State, g: Aux, t: Thread)
    requires Inv(s, g) && t in s.threads && s.threads[t].pc == Idle
    ensures Inv(StartDequeueStep(s, t), g.(sawEmpty := g.sawEmpty - {t}))
  {
    hide ChainOk, PlacesOk, Rely, Relied;
    var s', g' := StartDequeueStep(s, t), g.(sawEmpty := g.sawEmpty - {t});
    assert ThreadOk(s, g, t);
    ChainFrame(s, g, s', g');
    PlacesLocal(s, g, t, s'.threads[t]);
    PlacesFrame(s', g, s', g');
    StartDequeueRely(s, g, t);
    assert ThreadOk(s', g', t);
    Assemble(s, g, s', g', t);
  }

  lemma StartDequeueRely(s: State, g: Aux, t: Thread)
    requires t in s.threads
    ensures Relied(s, g, StartDequeueStep(s, t), g.(sawEmpty := g.sawEmpty - {t}), t)
  {
  }

  lemma GiveUpKeeps(s: State, g: Aux, t: Thread, link: Node)
    requires Inv(s, g) && t in s.threads && s.threads[t].pc == EGiveUp
    ensures Inv(GiveUp(s, t, link), g.(owned := g.owned - {s.threads[t].node}))
  {
    hide ChainOk, PlacesOk, ThreadOk, Rely, Relied;
    var n := s.threads[t].node;
    var s', g' := GiveUp(s, t, link), g.(owned := g.owned - {n});
    GiveUpFacts(s, g, t);
    FieldsChain(s, g, n, link, None);
    ChainFrame(s.(next := s.next[n := link], data := s.data[n := None]), g, s', g');
    GiveUpPlaces(s, g, t, link);
    GiveUpOwn(s, g, t, link);
    GiveUpRely(s, g, t, link);
    Assemble(s, g, s', g', t);
  }

  lemma GiveUpFacts(s: State, g: Aux, t: Thread)
    requires PlacesOk(s, g) && t in s.threads && ThreadOk(s, g, t) && s.threads[t].pc == EGiveUp
    ensures s.threads[t].node in g.owned && g.owned[s.threads[t].node] == t && s.threads[t].node !in g.pos
    ensures s.threads[t].node in s.next
  {
  }

  lemma GiveUpPlaces(s: State, g: Aux, t: Thread, link: Node)
    requires PlacesOk(s, g) && t in s.threads && s.threads[t].pc == EGiveUp
    requires s.threads[t].node in g.owned && g.owned[s.threads[t].node] == t && s.threads[t].node in s.next
    ensures PlacesOk(GiveUp(s, t, link), g.(owned := g.owned - {s.threads[t].node}))
  {
  }

  lemma GiveUpOwn(s: State, g: Aux, t: Thread, link: Node)
    requires t in s.threads && ThreadOk(s, g, t) && s.threads[t].pc == EGiveUp
    ensures ThreadOk(GiveUp(s, t, link), g.(owned := g.owned - {s.threads[t].node}), t)
  {
  }

  lemma GiveUpRely(s: State, g: Aux, t: Thread, link: Node)
    requires Inv(s, g) && t in s.threads && s.threads[t].node in g.owned && g.owned[s.threads[t].node] == t
    requires s.threads[t].node !in g.pos
    ensures Relied(s, g, GiveUp(s, t, link), g.(owned := g.owned - {s.threads[t].node}), t)
  {
    hide ChainOk, PlacesOk, ThreadOk;
    var s', g' := GiveUp(s, t, link), g.(owned := g.owned - {s.threads[t].node});
    forall u | u in s.threads && u != t
      ensures Rely(s, g, s', g', u)
    {
      TakesLive(s, g, u);
    }
  }
}
