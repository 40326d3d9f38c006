/** What every interleaving of `add_orphaned_nodes` and `reclaim` keeps. */
module OrphansInvariant {
  import opened Orphans

  // ---------------------------------------------------------------- the invariant

  /** `q` lists, once each, the nodes that are at `pl`. */
  ghost predicate Holds(place: map<Node, Place>, pl: Place, q: seq<Node>) {
    Distinct(q) && forall n :: n in q <==> n in place && place[n] == pl
  }

  ghost predicate PlacesOk(s: State) {
    && Holds(s.place, Listed, s.list)
    && s.calls.Keys == s.held.Keys
    && (forall t :: t in s.held ==> Holds(s.place, With(t), s.held[t]))
    && (forall n :: n in s.place && s.place[n].With? ==> s.place[n].t in s.held)
    && s.place.Keys == s.next.Keys == s.addr.Keys
  }

  /** Every hand-over of a node is matched by a deletion, except that it may still be around, once. */
  ghost predicate HandedOk(s: State) {
    forall n :: s.handed[n] == s.deleted[n] + if n in s.place then 1 else 0
  }

  /** The entries whose object is (`keep`) or is not found in the sorted argument. */
  function Filter(protected: seq<Addr>, rs: seq<Retired>, keep: bool): seq<Node> {
    if rs == [] then []
    else
      var n := |rs| - 1;
      Filter(protected, rs[..n], keep) + if BinarySearch(protected, rs[n].addr) == keep then [rs[n].node] else []
  }

  /** How far a sweep is. */
  ghost predicate RoundOk(r: Round, addr: map<Node, Addr>, held: seq<Node>) {
    && r.done <= |r.taken| && Sorted(r.protected)
    && r.kept == Filter(r.protected, r.taken[..r.done], true)
    && r.gone == Filter(r.protected, r.taken[..r.done], false)
    && held == r.kept + Names(r.taken[r.done..])
    && forall i :: r.done <= i < |r.taken| ==> r.taken[i].node in addr && addr[r.taken[i].node] == r.taken[i].addr
  }

  ghost predicate SweepOk(s: State, p: Pc, r: Round)
    requires p.Sweep? && r.done <= |r.taken|
  {
    && p.protected == r.protected && p.keepCount == |r.kept| && p.reclaimed == |r.gone|
    && Chain(s.next, p.keepHead, r.kept, Null)
    && Chain(s.next, p.curr, Names(r.taken[r.done..]), Null)
    && p.keepTail == (if r.kept == [] then Null else At(r.kept[|r.kept| - 1]))
  }

  ghost predicate PcOk(s: State, t: Thread)
    requires t in s.calls && t in s.held
  {
    var h := s.held[t];
    match s.calls[t]
    case FindTail(head, c, tail) => Chain(s.next, At(head), h, Null) && tail in h && c == |h|
    case LoadHead(head, c, tail) => Chain(s.next, At(head), h, Null) && h != [] && tail == h[|h| - 1] && c == |h|
    case SetNext(head, c, tail, seen) =>
      (exists e :: Chain(s.next, At(head), h, e)) && h != [] && tail == h[|h| - 1] && c == |h|
    case SwapHead(head, c, tail, seen) =>
      Chain(s.next, At(head), h, seen) && h != [] && tail == h[|h| - 1] && c == |h|
    case AddCount(c) => h == []
    case Exchange(prot) => h == [] && Sorted(prot)
    case Sweep(prot, curr, kh, kt, r, k) =>
      t in s.rounds && RoundOk(s.rounds[t], s.addr, h) && SweepOk(s, s.calls[t], s.rounds[t])
    case SubCount(kh, r, k) =>
      && t in s.rounds && RoundOk(s.rounds[t], s.addr, h) && s.rounds[t].done == |s.rounds[t].taken|
      && Chain(s.next, kh, h, Null) && k == |h| && r == |s.rounds[t].gone|
  }

  ghost predicate CallsOk(s: State)
    requires s.calls.Keys == s.held.Keys
  {
    forall t :: t in s.calls ==> PcOk(s, t)
  }

  ghost predicate Inv(s: State) {
    PlacesOk(s) && HandedOk(s) && Chain(s.next, s.head, s.list, Null) && CallsOk(s)
  }

  // ---------------------------------------------------------------- other calls are not disturbed

  /** What a step of `t` leaves alone. */
  ghost predicate Undisturbed(s: State, s': State, u: Thread)
    requires u in s.calls && u in s.held
  {
    && u in s'.calls && s'.calls[u] == s.calls[u] && u in s'.held && s'.held[u] == s.held[u]
    && (u in s.rounds ==> u in s'.rounds && s'.rounds[u] == s.rounds[u])
    && forall n :: n in s.held[u] ==>
         && (n in s.next ==> n in s'.next && s'.next[n] == s.next[n])
         && (n in s.addr ==> n in s'.addr && s'.addr[n] == s.addr[n])
  }

  lemma OtherOk(s: State, s': State, u: Thread)
    requires u in s.calls && u in s.held && PcOk(s, u) && Undisturbed(s, s', u)
    ensures PcOk(s', u)
  {
    var h := s.held[u];
    match s.calls[u]
    case FindTail(head, c, tail) => ChainSame(s.next, s'.next, At(head), h, Null);
    case LoadHead(head, c, tail) => ChainSame(s.next, s'.next, At(head), h, Null);
    case SetNext(head, c, tail, seen) =>
      var e :| Chain(s.next, At(head), h, e);
      ChainSame(s.next, s'.next, At(head), h, e);
    case SwapHead(head, c, tail, seen) => ChainSame(s.next, s'.next, At(head), h, seen);
    case AddCount(c) =>
    case Exchange(prot) =>
    case Sweep(prot, curr, kh, kt, r, k) => OtherSweep(s, s', u);
    case SubCount(kh, r, k) =>
      ChainSame(s.next, s'.next, kh, h, Null);
      RestEmpty(s.rounds[u]);
  }

  lemma RestEmpty(r: Round)
    requires r.done == |r.taken|
    ensures Names(r.taken[r.done..]) == []
  {
  }

  lemma OtherSweep(s: State, s': State, u: Thread)
    requires u in s.calls && u in s.held && PcOk(s, u) && s.calls[u].Sweep? && Undisturbed(s, s', u)
    ensures PcOk(s', u)
  {
    var p, r, h := s.calls[u], s.rounds[u], s.held[u];
    var rest := Names(r.taken[r.done..]);
    assert forall n :: n in r.kept ==> n in h;
    assert forall n :: n in rest ==> n in h;
    ChainSame(s.next, s'.next, p.keepHead, r.kept, Null);
    ChainSame(s.next, s'.next, p.curr, rest, Null);
    forall i | r.done <= i < |r.taken|
      ensures r.taken[i].node in s'.addr && s'.addr[r.taken[i].node] == r.taken[i].addr
    {
      assert rest[i - r.done] == r.taken[i].node;
    }
  }

  /** All calls but `t`'s are left alone. */
  ghost predicate OnlyBy(s: State, s': State, t: Thread) {
    && s'.calls.Keys == s'.held.Keys
    && (forall u :: u in s'.calls && u != t ==> u in s.calls && u in s.held && Undisturbed(s, s', u))
  }

  lemma OthersOk(s: State, s': State, t: Thread)
    requires s.calls.Keys == s.held.Keys && CallsOk(s) && OnlyBy(s, s', t)
    requires t in s'.calls ==> PcOk(s', t)
    ensures CallsOk(s')
  {
    hide PcOk, Undisturbed;
    forall u | u in s'.calls
      ensures PcOk(s', u)
    {
      if u != t {
        OtherOk(s, s', u);
      }
    }
  }

  /** A node held by one call is not held by another, nor on the list. */
  lemma Apart(s: State, t: Thread, u: Thread, n: Node)
    requires PlacesOk(s) && t in s.held && u in s.held && t != u && n in s.held[t]
    ensures n !in s.held[u] && n !in s.list
  {
    assert Holds(s.place, With(t), s.held[t]) && Holds(s.place, With(u), s.held[u]);
  }

  // ---------------------------------------------------------------- steps that move no node

  /** The step changes the caller's own position, and the links or entries of nodes it holds. */
  lemma OnlyOwn(s: State, s': State, t: Thread)
    requires PlacesOk(s) && t in s.held
    requires s'.calls.Keys == s.calls.Keys && s'.held == s.held
    requires forall u :: u in s.calls && u != t ==> s'.calls[u] == s.calls[u]
    requires forall u :: u in s.rounds && u != t ==> u in s'.rounds && s'.rounds[u] == s.rounds[u]
    requires s'.addr == s.addr
    requires forall n :: n in s.next && n !in s.held[t] ==> n in s'.next && s'.next[n] == s.next[n]
    ensures OnlyBy(s, s', t)
  {
    forall u | u in s'.calls && u != t
      ensures Undisturbed(s, s', u)
    {
      forall n | n in s.held[u]
        ensures n !in s.held[t]
      {
        Apart(s, u, t, n);
      }
    }
  }

  lemma ListKept(s: State, s': State, t: Thread)
    requires PlacesOk(s) && t in s.held && Chain(s.next, s.head, s.list, Null)
    requires forall n :: n in s.next && n !in s.held[t] ==> n in s'.next && s'.next[n] == s.next[n]
    ensures Chain(s'.next, s.head, s.list, Null)
  {
    forall n | n in s.list
      ensures n !in s.held[t]
    {
      assert Holds(s.place, With(t), s.held[t]);
    }
    ChainSame(s.next, s'.next, s.head, s.list, Null);
  }

  lemma FindTailOk(s: State, t: Thread, lucky: bool)
    requires Inv(s) && t in s.calls && s.calls[t].FindTail? && CanStep(s, s.calls[t])
    ensures Inv(StepOf(s, t, lucky))
  {
    hide PlacesOk, HandedOk, CallsOk;
    var s' := StepOf(s, t, lucky);
    Keys(s, t);
    var p, h := s.calls[t], s.held[t];
    var i :| 0 <= i < |h| && h[i] == p.tail;
    ChainNodes(s.next, At(p.head), h, Null, i);
    OnlyOwn(s, s', t);
    OthersOk(s, s', t);
    SamePlaces(s, s');
  }

  lemma Keys(s: State, t: Thread)
    requires Inv(s) && t in s.calls
    ensures t in s.held && PcOk(s, t) && Holds(s.place, With(t), s.held[t]) && Distinct(s.held[t])
    ensures s.calls.Keys == s.held.Keys
  {
  }

  lemma SamePlaces(s: State, s': State)
    requires PlacesOk(s) && HandedOk(s)
    requires s'.calls.Keys == s.calls.Keys && s'.held == s.held && s'.place == s.place && s'.list == s.list
    requires s'.next.Keys == s.next.Keys && s'.addr.Keys == s.addr.Keys
    requires s'.handed == s.handed && s'.deleted == s.deleted
    ensures PlacesOk(s') && HandedOk(s')
  {
  }

  lemma LoadHeadOk(s: State, t: Thread, lucky: bool)
    requires Inv(s) && t in s.calls && s.calls[t].LoadHead?
    ensures Inv(StepOf(s, t, lucky))
  {
    hide PlacesOk, HandedOk, CallsOk;
    var s' := StepOf(s, t, lucky);
    Keys(s, t);
    OnlyOwn(s, s', t);
    OthersOk(s, s', t);
    SamePlaces(s, s');
  }

  lemma SetNextOk(s: State, t: Thread, lucky: bool)
    requires Inv(s) && t in s.calls && s.calls[t].SetNext? && CanStep(s, s.calls[t])
    ensures Inv(StepOf(s, t, lucky))
  {
    hide PlacesOk, HandedOk, CallsOk;
    var s' := StepOf(s, t, lucky);
    Keys(s, t);
    var p, h := s.calls[t], s.held[t];
    var e :| Chain(s.next, At(p.head), h, e);
    ChainRetarget(s.next, At(p.head), h, e, p.seen);
    OnlyOwn(s, s', t);
    OthersOk(s, s', t);
    ListKept(s, s', t);
    SamePlaces(s, s');
  }

  lemma SwapMissOk(s: State, t: Thread)
    requires Inv(s) && t in s.calls && s.calls[t].SwapHead?
    ensures Inv(s.(calls := s.calls[t := SetNext(s.calls[t].head, s.calls[t].count, s.calls[t].tail, s.head)]))
  {
    hide PlacesOk, HandedOk, CallsOk;
    var p := s.calls[t];
    var s' := s.(calls := s.calls[t := SetNext(p.head, p.count, p.tail, s.head)]);
    Keys(s, t);
    assert Chain(s'.next, At(p.head), s'.held[t], p.seen);
    OnlyOwn(s, s', t);
    OthersOk(s, s', t);
    SamePlaces(s, s');
  }

  lemma SubCountOk(s: State, t: Thread, lucky: bool)
    requires Inv(s) && t in s.calls && s.calls[t].SubCount?
    ensures Inv(StepOf(s, t, lucky))
  {
    hide PlacesOk, HandedOk, CallsOk;
    var s' := StepOf(s, t, lucky);
    Keys(s, t);
    var p, h := s.calls[t], s.held[t];
    if p.keepHead.At? {
      assert h != [];
      OnlyOwn(s, s', t);
      OthersOk(s, s', t);
      SamePlaces(s, s');
    } else {
      assert h == [];
      Leave(s, s', t);
    }
  }

  /** A call that holds nothing returns. */
  lemma Leave(s: State, s': State, t: Thread)
    requires Inv(s) && t in s.calls && s.held[t] == []
    requires s' == s.(calls := s.calls - {t}, held := s.held - {t}, count := s'.count)
    ensures Inv(s')
  {
    hide Chain, CallsOk;
    LeavePlaces(s, s', t);
    hide PlacesOk, HandedOk;
    Keys(s, t);
    LeaveOthers(s, s', t);
    OthersOk(s, s', t);
  }

  lemma LeaveOthers(s: State, s': State, t: Thread)
    requires s.calls.Keys == s.held.Keys
    requires s' == s.(calls := s.calls - {t}, held := s.held - {t}, count := s'.count)
    ensures OnlyBy(s, s', t)
  {
  }

  lemma LeavePlaces(s: State, s': State, t: Thread)
    requires PlacesOk(s) && HandedOk(s) && t in s.held && s.held[t] == []
    requires s' == s.(calls := s.calls - {t}, held := s.held - {t}, count := s'.count)
    ensures PlacesOk(s') && HandedOk(s')
  {
    assert Holds(s.place, With(t), []);
    assert forall n :: n in s.place && s.place[n] == With(t) ==> n in s.held[t];
  }

  // ---------------------------------------------------------------- steps that move nodes

  lemma HoldsSame(place: map<Node, Place>, place': map<Node, Place>, pl: Place, q: seq<Node>)
    requires Holds(place, pl, q)
    requires forall n :: (n in place && place[n] == pl) <==> (n in place' && place'[n] == pl)
    ensures Holds(place', pl, q)
  {
  }

  /** The places after a step, part by part. */
  lemma PlacesFrom(s: State, s': State, t: Thread)
    requires PlacesOk(s)
    requires Holds(s'.place, Listed, s'.list) && s'.calls.Keys == s'.held.Keys && t in s'.held
    requires Holds(s'.place, With(t), s'.held[t])
    requires forall u :: u in s'.held && u != t ==> u in s.held && s'.held[u] == s.held[u]
    requires s.held.Keys <= s'.held.Keys
    requires forall n, u :: u != t ==>
               ((n in s.place && s.place[n] == With(u)) <==> (n in s'.place && s'.place[n] == With(u)))
    requires s'.place.Keys == s'.next.Keys == s'.addr.Keys
    ensures PlacesOk(s')
  {
    hide Holds;
    forall u | u in s'.held
      ensures Holds(s'.place, With(u), s'.held[u])
    {
      if u != t {
        HoldsSame(s.place, s'.place, With(u), s.held[u]);
      }
    }
    forall n | n in s'.place && s'.place[n].With?
      ensures s'.place[n].t in s'.held
    {
      if s'.place[n].t != t {
        assert n in s.place && s.place[n] == With(s'.place[n].t);
      }
    }
  }

  lemma SwapHitOk(s: State, t: Thread)
    requires Inv(s) && t in s.calls && s.calls[t].SwapHead? && s.head == s.calls[t].seen
    ensures Inv(SwapHeadStep(s, t, s.calls[t], true))
  {
    hide HandedOk, CallsOk, PlacesOk, Chain;
    var s' := SwapHeadStep(s, t, s.calls[t], true);
    Keys(s, t);
    var p, h := s.calls[t], s.held[t];
    ChainJoin(s.next, At(p.head), h, s.head, s.list, Null);
    SwapHitPlaces(s, t);
    SwapHitOthers(s, t);
    OthersOk(s, s', t);
  }

  lemma SwapHitOthers(s: State, t: Thread)
    requires PlacesOk(s) && t in s.calls && s.calls[t].SwapHead? && s.head == s.calls[t].seen
    ensures OnlyBy(s, SwapHeadStep(s, t, s.calls[t], true), t)
  {
  }

  lemma SwapHitPlaces(s: State, t: Thread)
    requires PlacesOk(s) && HandedOk(s) && t in s.calls && s.calls[t].SwapHead? && s.head == s.calls[t].seen
    ensures PlacesOk(SwapHeadStep(s, t, s.calls[t], true)) && HandedOk(SwapHeadStep(s, t, s.calls[t], true))
  {
    hide Holds;
    var s' := SwapHeadStep(s, t, s.calls[t], true);
    JoinedHolds(s.place, t, s.held[t], s.list, s'.place);
    EmptyHolds(s'.place, With(t));
    PlacesFrom(s, s', t);
  }

  lemma EmptyHolds(place: map<Node, Place>, pl: Place)
    requires forall n :: n in place ==> place[n] != pl
    ensures Holds(place, pl, [])
  {
  }

  lemma JoinedHolds(place: map<Node, Place>, t: Thread, h: seq<Node>, list: seq<Node>, place': map<Node, Place>)
    requires Holds(place, With(t), h) && Holds(place, Listed, list)
    requires place' == map n | n in place :: if place[n] == With(t) then Listed else place[n]
    ensures Holds(place', Listed, h + list)
  {
    forall i, j | 0 <= i < j < |h + list|
      ensures (h + list)[i] != (h + list)[j]
    {
      if i < |h| <= j {
        assert h[i] in h && list[j - |h|] in list;
      }
    }
  }

  lemma ExchangeOk(s: State, t: Thread)
    requires Inv(s) && t in s.calls && s.calls[t].Exchange? && s.head != Null
    ensures Inv(ExchangeStep(s, t, s.calls[t]))
  {
    hide HandedOk, CallsOk, Chain;
    var s' := ExchangeStep(s, t, s.calls[t]);
    Keys(s, t);
    ExchangePlaces(s, t);
    ExchangeOthers(s, t);
    ExchangeOwn(s, t);
    assert Chain(s'.next, Null, [], Null) by { EmptyChain(s'.next); }
    hide PlacesOk, PcOk;
    OthersOk(s, s', t);
  }

  lemma EmptyChain(next: map<Node, Ptr>)
    ensures Chain(next, Null, [], Null)
  {
  }

  lemma ExchangeOthers(s: State, t: Thread)
    requires PlacesOk(s) && t in s.calls && s.calls[t].Exchange? && s.head != Null
    ensures OnlyBy(s, ExchangeStep(s, t, s.calls[t]), t)
  {
  }

  lemma ExchangePlaces(s: State, t: Thread)
    requires PlacesOk(s) && HandedOk(s) && t in s.calls && s.calls[t].Exchange? && s.head != Null && s.held[t] == []
    ensures PlacesOk(ExchangeStep(s, t, s.calls[t])) && HandedOk(ExchangeStep(s, t, s.calls[t]))
  {
    hide Holds;
    var s' := ExchangeStep(s, t, s.calls[t]);
    TakenHolds(s.place, t, s.list, s'.place);
    EmptyHolds(s'.place, Listed);
    PlacesFrom(s, s', t);
  }

  lemma TakenHolds(place: map<Node, Place>, t: Thread, list: seq<Node>, place': map<Node, Place>)
    requires Holds(place, With(t), []) && Holds(place, Listed, list)
    requires place' == map n | n in place :: if place[n] == Listed then With(t) else place[n]
    ensures Holds(place', With(t), list)
  {
  }

  lemma FoundNames(addr: map<Node, Addr>, list: seq<Node>)
    ensures Names(Found(addr, list)) == list
  {
  }

  lemma ExchangeOwn(s: State, t: Thread)
    requires Inv(s) && t in s.calls && s.calls[t].Exchange? && s.head != Null
    ensures PcOk(ExchangeStep(s, t, s.calls[t]), t)
  {
    hide HandedOk, Chain, CallsOk;
    var s' := ExchangeStep(s, t, s.calls[t]);
    Keys(s, t);
    EmptyChain(s'.next);
    var r := s'.rounds[t];
    FoundNames(s.addr, s.list);
    assert r.taken[..0] == [] && r.taken[0..] == r.taken;
    forall i | 0 <= i < |r.taken|
      ensures r.taken[i].node in s.addr
    {
      assert s.list[i] in s.list;
      assert s.list[i] in s.place;
    }
  }

  lemma SweepEndOk(s: State, t: Thread)
    requires Inv(s) && t in s.calls && s.calls[t].Sweep? && s.calls[t].curr == Null
    ensures Inv(SweepStep(s, t, s.calls[t]))
  {
    hide PlacesOk, HandedOk, CallsOk;
    var s' := SweepStep(s, t, s.calls[t]);
    Keys(s, t);
    var r := s.rounds[t];
    assert Names(r.taken[r.done..]) == [];
    assert s.held[t] == r.kept;
    OnlyOwn(s, s', t);
    OthersOk(s, s', t);
    SamePlaces(s, s');
  }

  /** The next node of a sweep. */
  lemma NextOf(r: Round, addr: map<Node, Addr>, next: map<Node, Ptr>, p: Ptr, held: seq<Node>)
    requires RoundOk(r, addr, held) && Chain(next, p, Names(r.taken[r.done..]), Null) && p.At?
    ensures r.done < |r.taken| && p.node == r.taken[r.done].node && p.node in next && p.node in addr
    ensures addr[p.node] == r.taken[r.done].addr
    ensures held[..|r.kept|] == r.kept && |held| > |r.kept| && held[|r.kept|] == p.node
    ensures held[|r.kept| + 1..] == Names(r.taken[r.done + 1..])
    ensures Chain(next, next[p.node], Names(r.taken[r.done + 1..]), Null)
  {
    var rest := Names(r.taken[r.done..]);
    assert rest != [];
    assert rest[1..] == Names(r.taken[r.done + 1..]);
  }

  lemma FilterMore(protected: seq<Addr>, rs: seq<Retired>, k: nat, keep: bool)
    requires k < |rs|
    ensures Filter(protected, rs[..k + 1], keep)
            == Filter(protected, rs[..k], keep)
               + if BinarySearch(protected, rs[k].addr) == keep then [rs[k].node] else []
  {
    assert rs[..k + 1][..k] == rs[..k];
  }

  lemma KeepRound(r: Round, addr: map<Node, Addr>, held: seq<Node>, n: Node)
    requires RoundOk(r, addr, held) && r.done < |r.taken| && n == r.taken[r.done].node
    requires BinarySearch(r.protected, r.taken[r.done].addr)
    ensures RoundOk(r.(done := r.done + 1, kept := r.kept + [n]), addr, held)
  {
    FilterMore(r.protected, r.taken, r.done, true);
    FilterMore(r.protected, r.taken, r.done, false);
    assert Names(r.taken[r.done..]) == [n] + Names(r.taken[r.done + 1..]);
  }

  /** Keeping a node appends it to the kept chain and leaves the rest. */
  lemma KeepChains(next: map<Node, Ptr>, kh: Ptr, kept: seq<Node>, n: Node, rest: seq<Node>, next': map<Node, Ptr>)
    requires Distinct(kept + [n] + rest) && Chain(next, kh, kept, Null) && n in next && Chain(next, next[n], rest, Null)
    requires next' == (if kept == [] then next else next[kept[|kept| - 1] := At(n)])[n := Null]
    ensures Chain(next', if kept == [] then At(n) else kh, kept + [n], Null) && Chain(next', next[n], rest, Null)
  {
    var q := kept + [n] + rest;
    assert forall i :: 0 <= i < |kept| ==> q[i] == kept[i];
    assert q[|kept|] == n && forall i :: 0 <= i < |rest| ==> q[|kept| + 1 + i] == rest[i];
    assert n !in kept && n !in rest;
    ChainSame(next, next', next[n], rest, Null);
    assert next'[n] == Null && Chain(next', Null, [], Null);
    assert [n][1..] == [];
    assert Chain(next', At(n), [n], Null);
    if kept != [] {
      ChainRetarget(next, kh, kept, Null, At(n));
      ChainSame(next[kept[|kept| - 1] := At(n)], next', kh, kept, At(n));
      ChainJoin(next', kh, kept, At(n), [n], Null);
    } else {
      assert kept + [n] == [n];
    }
  }

  lemma KeepOwn(s: State, t: Thread)
    requires Inv(s) && t in s.calls && s.calls[t].Sweep? && s.calls[t].curr.At? && CanStep(s, s.calls[t])
    requires BinarySearch(s.calls[t].protected, s.addr[s.calls[t].curr.node])
    ensures PcOk(KeepNode(s, t, s.calls[t]), t)
    ensures forall n :: n in s.next && n !in s.held[t] ==>
              n in KeepNode(s, t, s.calls[t]).next && KeepNode(s, t, s.calls[t]).next[n] == s.next[n]
    ensures KeepNode(s, t, s.calls[t]).next.Keys == s.next.Keys
  {
    hide PlacesOk, HandedOk, CallsOk, Chain, RoundOk;
    Keys(s, t);
    var p, r, h := s.calls[t], s.rounds[t], s.held[t];
    var n := p.curr.node;
    assert RoundOk(r, s.addr, h);
    NextOf(r, s.addr, s.next, p.curr, h);
    KeepRound(r, s.addr, h, n);
    var rest := Names(r.taken[r.done + 1..]);
    assert h == r.kept + [n] + rest;
    EmptyKept(s.next, p.keepHead, r.kept);
    KeepChains(s.next, p.keepHead, r.kept, n, rest, KeepNode(s, t, p).next);
    RoundBound(r, s.addr, h);
    if r.kept != [] {
      assert h[|r.kept| - 1] == r.kept[|r.kept| - 1];
      ChainNodes(s.next, p.keepHead, r.kept, Null, |r.kept| - 1);
    }
  }

  lemma RoundBound(r: Round, addr: map<Node, Addr>, held: seq<Node>)
    requires RoundOk(r, addr, held)
    ensures r.done <= |r.taken|
  {
  }

  lemma EmptyKept(next: map<Node, Ptr>, kh: Ptr, kept: seq<Node>)
    requires Chain(next, kh, kept, Null)
    ensures kh.At? <==> kept != []
  {
  }

  lemma KeepOk(s: State, t: Thread)
    requires Inv(s) && t in s.calls && s.calls[t].Sweep? && s.calls[t].curr.At? && CanStep(s, s.calls[t])
    requires BinarySearch(s.calls[t].protected, s.addr[s.calls[t].curr.node])
    ensures Inv(KeepNode(s, t, s.calls[t]))
  {
    hide PlacesOk, HandedOk, CallsOk, Chain, PcOk, BinarySearch;
    var s' := KeepNode(s, t, s.calls[t]);
    Keys(s, t);
    KeepOwn(s, t);
    OnlyOwn(s, s', t);
    OthersOk(s, s', t);
    ListKept(s, s', t);
    SamePlaces(s, s');
  }

  lemma DeleteRound(r: Round, addr: map<Node, Addr>, held: seq<Node>, n: Node, held': seq<Node>)
    requires RoundOk(r, addr, held) && r.done < |r.taken| && n == r.taken[r.done].node && Distinct(held)
    requires !BinarySearch(r.protected, r.taken[r.done].addr)
    requires held' == held[..|r.kept|] + held[|r.kept| + 1..]
    ensures RoundOk(r.(done := r.done + 1, gone := r.gone + [n]), addr - {n}, held')
  {
    FilterMore(r.protected, r.taken, r.done, true);
    FilterMore(r.protected, r.taken, r.done, false);
    var rest := Names(r.taken[r.done..]);
    assert rest == [n] + Names(r.taken[r.done + 1..]);
    forall i | r.done + 1 <= i < |r.taken|
      ensures r.taken[i].node in addr - {n} && (addr - {n})[r.taken[i].node] == r.taken[i].addr
    {
      assert held[|r.kept| + (i - r.done)] == r.taken[i].node && held[|r.kept|] == n;
    }
  }

  lemma DeleteOwn(s: State, t: Thread)
    requires Inv(s) && t in s.calls && s.calls[t].Sweep? && s.calls[t].curr.At? && CanStep(s, s.calls[t])
    requires !BinarySearch(s.calls[t].protected, s.addr[s.calls[t].curr.node])
    ensures PcOk(DeleteNode(s, t, s.calls[t]), t)
    ensures DeleteNode(s, t, s.calls[t]).held[t]
            == s.held[t][..s.calls[t].keepCount] + s.held[t][s.calls[t].keepCount + 1..]
    ensures s.calls[t].keepCount < |s.held[t]| && s.held[t][s.calls[t].keepCount] == s.calls[t].curr.node
  {
    hide PlacesOk, HandedOk, CallsOk, Chain, RoundOk;
    Keys(s, t);
    var p, r, h := s.calls[t], s.rounds[t], s.held[t];
    var n := p.curr.node;
    assert RoundOk(r, s.addr, h);
    NextOf(r, s.addr, s.next, p.curr, h);
    var rest := Names(r.taken[r.done + 1..]);
    DeleteRound(r, s.addr, h, n, r.kept + rest);
    assert h == r.kept + [n] + rest;
    assert forall i :: 0 <= i < |r.kept| ==> h[i] == r.kept[i];
    assert forall i :: 0 <= i < |rest| ==> h[|r.kept| + 1 + i] == rest[i];
    assert n !in r.kept && n !in rest;
    ChainSame(s.next, s.next - {n}, p.keepHead, r.kept, Null);
    ChainSame(s.next, s.next - {n}, s.next[n], rest, Null);
    RoundBound(r, s.addr, h);
  }

  lemma DeleteHolds(place: map<Node, Place>, t: Thread, h: seq<Node>, k: nat)
    requires Holds(place, With(t), h) && k < |h|
    ensures Holds(place - {h[k]}, With(t), h[..k] + h[k + 1..])
  {
    var h' := h[..k] + h[k + 1..];
    assert forall i :: 0 <= i < |h'| ==> h'[i] == if i < k then h[i] else h[i + 1];
    forall n
      ensures n in h' <==> n in h && n != h[k]
    {
      if n in h && n != h[k] {
        var i :| 0 <= i < |h| && h[i] == n;
        assert h'[if i < k then i else i - 1] == n;
      }
    }
  }

  lemma DeletePlaces(s: State, s': State, t: Thread, n: Node, k: nat)
    requires PlacesOk(s) && HandedOk(s) && t in s.held && k < |s.held[t]| && s.held[t][k] == n
    requires s'.calls.Keys == s.calls.Keys && s'.held == s.held[t := s.held[t][..k] + s.held[t][k + 1..]]
    requires s'.place == s.place - {n} && s'.next == s.next - {n} && s'.addr == s.addr - {n}
    requires s'.list == s.list && s'.handed == s.handed && s'.deleted == s.deleted + multiset{n}
    ensures PlacesOk(s') && HandedOk(s')
  {
    hide Holds;
    assert n in s.place && s.place[n] == With(t) by { HeldPlace(s.place, With(t), s.held[t], k); }
    DeleteHolds(s.place, t, s.held[t], k);
    HoldsSame(s.place, s'.place, Listed, s.list);
    PlacesFrom(s, s', t);
  }

  lemma HeldPlace(place: map<Node, Place>, pl: Place, q: seq<Node>, k: nat)
    requires Holds(place, pl, q) && k < |q|
    ensures q[k] in place && place[q[k]] == pl
  {
    assert q[k] in q;
  }

  lemma DeleteOthers(s: State, s': State, t: Thread, n: Node)
    requires PlacesOk(s) && t in s.held && n in s.held[t]
    requires s'.calls.Keys == s.calls.Keys && s'.held.Keys == s.held.Keys
    requires forall u :: u in s.calls && u != t ==> s'.calls[u] == s.calls[u] && s'.held[u] == s.held[u]
    requires forall u :: u in s.rounds && u != t ==> u in s'.rounds && s'.rounds[u] == s.rounds[u]
    requires s'.next == s.next - {n} && s'.addr == s.addr - {n}
    ensures OnlyBy(s, s', t)
  {
    forall u | u in s'.calls && u != t
      ensures Undisturbed(s, s', u)
    {
      Apart(s, t, u, n);
    }
  }

  lemma DeleteOk(s: State, t: Thread)
    requires Inv(s) && t in s.calls && s.calls[t].Sweep? && s.calls[t].curr.At? && CanStep(s, s.calls[t])
    requires !BinarySearch(s.calls[t].protected, s.addr[s.calls[t].curr.node])
    ensures Inv(DeleteNode(s, t, s.calls[t]))
  {
    hide PlacesOk, HandedOk, CallsOk, Chain, PcOk, BinarySearch;
    var s' := DeleteNode(s, t, s.calls[t]);
    var n, k := s.calls[t].curr.node, s.calls[t].keepCount;
    Keys(s, t);
    DeleteOwn(s, t);
    DeletePlaces(s, s', t, n, k);
    assert n in s.held[t];
    DeleteOthers(s, s', t, n);
    OthersOk(s, s', t);
    ListKept(s, s', t);
  }

  // ---------------------------------------------------------------- beginnings

  lemma BeginAddPlaces(s: State, t: Thread, nodes: seq<Retired>)
    requires PlacesOk(s) && Enabled(s, BeginAdd(t, nodes))
    ensures PlacesOk(BeginAddStep(s, t, nodes))
  {
    hide Holds, Chain, Links, Addrs;
    var s' := BeginAddStep(s, t, nodes);
    var names := Names(nodes);
    LinksChain(names);
    AddrsKeys(nodes);
    NoneWith(s, t);
    NewHolds(s.place, t, names, s'.place);
    HoldsSame(s.place, s'.place, Listed, s.list);
    PlacesFrom(s, s', t);
  }

  lemma NoneWith(s: State, t: Thread)
    requires PlacesOk(s) && t !in s.calls
    ensures forall n :: n in s.place ==> s.place[n] != With(t)
  {
    hide Holds;
  }

  lemma NewHolds(place: map<Node, Place>, t: Thread, names: seq<Node>, place': map<Node, Place>)
    requires Distinct(names) && forall n :: n in place ==> place[n] != With(t)
    requires place' == map n | n in place.Keys + (set n | n in names) :: if n in names then With(t) else place[n]
    ensures Holds(place', With(t), names)
  {
  }

  lemma {:induction false} DistinctCounts(q: seq<Node>, n: Node)
    requires Distinct(q)
    ensures multiset(q)[n] == if n in q then 1 else 0
    decreases |q|
  {
    if q != [] {
      DistinctCounts(q[1..], n);
      assert q == [q[0]] + q[1..];
    }
  }

  lemma BeginAddHanded(s: State, t: Thread, nodes: seq<Retired>)
    requires HandedOk(s) && Enabled(s, BeginAdd(t, nodes))
    ensures HandedOk(BeginAddStep(s, t, nodes))
  {
    var s' := BeginAddStep(s, t, nodes);
    forall n
      ensures s'.handed[n] == s'.deleted[n] + if n in s'.place then 1 else 0
    {
      DistinctCounts(Names(nodes), n);
    }
  }

  lemma BeginAddOk(s: State, t: Thread, nodes: seq<Retired>)
    requires Inv(s) && Enabled(s, BeginAdd(t, nodes))
    ensures Inv(BeginAddStep(s, t, nodes))
  {
    hide HandedOk, CallsOk, Chain;
    var s' := BeginAddStep(s, t, nodes);
    var names := Names(nodes);
    BeginAddPlaces(s, t, nodes);
    BeginAddHanded(s, t, nodes);
    LinksChain(names);
    AddrsKeys(nodes);
    ChainSame(Links(names), s'.next, At(names[0]), names, Null);
    assert forall n :: n in s.list ==> n in s.place;
    ChainSame(s.next, s'.next, s.head, s.list, Null);
    BeginAddOthers(s, t, nodes);
    hide PlacesOk;
    OthersOk(s, s', t);
  }

  lemma BeginAddOthers(s: State, t: Thread, nodes: seq<Retired>)
    requires PlacesOk(s) && Enabled(s, BeginAdd(t, nodes))
    ensures OnlyBy(s, BeginAddStep(s, t, nodes), t)
  {
    hide Chain, Links, Addrs, Holds, Undisturbed;
    var s' := BeginAddStep(s, t, nodes);
    forall u | u in s'.calls && u != t
      ensures Undisturbed(s, s', u)
    {
      HeldAre(s, u);
      BeginAddOther(s, t, nodes, u);
    }
  }

  lemma BeginAddOther(s: State, t: Thread, nodes: seq<Retired>, u: Thread)
    requires Enabled(s, BeginAdd(t, nodes)) && u in s.calls && u in s.held && u != t
    requires forall n :: n in s.held[u] ==> n in s.place
    ensures Undisturbed(s, BeginAddStep(s, t, nodes), u)
  {
    hide Chain, Links, Addrs;
    LinksChain(Names(nodes));
    AddrsKeys(nodes);
  }

  lemma HeldAre(s: State, u: Thread)
    requires PlacesOk(s) && u in s.held
    ensures forall n :: n in s.held[u] ==> n in s.place
  {
    assert Holds(s.place, With(u), s.held[u]);
  }

  lemma BeginReclaimOk(s: State, t: Thread, protected: seq<Addr>)
    requires Inv(s) && Enabled(s, BeginReclaim(t, protected))
    ensures Inv(After(s, BeginReclaim(t, protected)))
  {
    hide Chain, HandedOk, Holds, CallsOk, PcOk;
    var s' := After(s, BeginReclaim(t, protected));
    NoneWith(s, t);
    EmptyHolds(s'.place, With(t));
    PlacesFrom(s, s', t);
    assert HandedOk(s') by { SameHanded(s, s'); }
    hide PlacesOk;
    BeginReclaimOwn(s, t, protected);
    BeginReclaimOthers(s, t, protected);
    OthersOk(s, s', t);
  }

  lemma SameHanded(s: State, s': State)
    requires HandedOk(s) && s'.handed == s.handed && s'.deleted == s.deleted && s'.place == s.place
    ensures HandedOk(s')
  {
  }

  lemma BeginReclaimOwn(s: State, t: Thread, protected: seq<Addr>)
    requires Enabled(s, BeginReclaim(t, protected))
    ensures PcOk(After(s, BeginReclaim(t, protected)), t)
  {
  }

  lemma BeginReclaimOthers(s: State, t: Thread, protected: seq<Addr>)
    requires Enabled(s, BeginReclaim(t, protected)) && s.calls.Keys == s.held.Keys
    ensures OnlyBy(s, After(s, BeginReclaim(t, protected)), t)
  {
  }

  // ---------------------------------------------------------------- every step, every run

  /** No call in progress ever follows a pointer to a deleted node. */
  lemma NoDangling(s: State, t: Thread)
    requires Inv(s) && t in s.calls
    ensures CanStep(s, s.calls[t])
  {
    hide PlacesOk, HandedOk, CallsOk;
    Keys(s, t);
    var p, h := s.calls[t], s.held[t];
    if p.FindTail? {
      var i :| 0 <= i < |h| && h[i] == p.tail;
      ChainNodes(s.next, At(p.head), h, Null, i);
    } else if p.SetNext? {
      var e :| Chain(s.next, At(p.head), h, e);
      ChainNodes(s.next, At(p.head), h, e, |h| - 1);
    } else if p.Sweep? && p.curr.At? {
      var r := s.rounds[t];
      NextOf(r, s.addr, s.next, p.curr, h);
      if r.kept != [] {
        ChainNodes(s.next, p.keepHead, r.kept, Null, |r.kept| - 1);
      }
    }
  }

  lemma StepInv(s: State, a: Action)
    requires Inv(s) && Enabled(s, a)
    ensures Inv(After(s, a))
  {
    hide Inv, SwapHeadStep, ExchangeStep, SweepStep, SubCountStep, BeginAddStep;
    match a
    case BeginAdd(t, nodes) => BeginAddOk(s, t, nodes);
    case BeginReclaim(t, protected) => BeginReclaimOk(s, t, protected);
    case Step(t, lucky) =>
      match s.calls[t]
      case FindTail(h, c, tail) => FindTailOk(s, t, lucky);
      case LoadHead(h, c, tail) => LoadHeadOk(s, t, lucky);
      case SetNext(h, c, tail, seen) => SetNextOk(s, t, lucky);
      case SwapHead(h, c, tail, seen) => SwapHeadOk(s, t, lucky);
      case AddCount(c) => AddCountOk(s, t, lucky);
      case Exchange(prot) => ExchangeAnyOk(s, t);
      case Sweep(prot, curr, kh, kt, r, k) => SweepOkStep(s, t);
      case SubCount(kh, r, k) => SubCountOk(s, t, lucky);
  }

  lemma SwapHeadOk(s: State, t: Thread, lucky: bool)
    requires Inv(s) && t in s.calls && s.calls[t].SwapHead?
    ensures Inv(SwapHeadStep(s, t, s.calls[t], lucky))
  {
    hide Inv;
    if lucky && s.head == s.calls[t].seen {
      SwapHitOk(s, t);
    } else {
      SwapMissOk(s, t);
    }
  }

  lemma AddCountOk(s: State, t: Thread, lucky: bool)
    requires Inv(s) && t in s.calls && s.calls[t].AddCount?
    ensures Inv(StepOf(s, t, lucky))
  {
    Keys(s, t);
    hide Inv;
    Leave(s, StepOf(s, t, lucky), t);
  }

  lemma ExchangeAnyOk(s: State, t: Thread)
    requires Inv(s) && t in s.calls && s.calls[t].Exchange?
    ensures Inv(ExchangeStep(s, t, s.calls[t]))
  {
    Keys(s, t);
    hide Inv;
    if s.head == Null {
      Leave(s, ExchangeStep(s, t, s.calls[t]), t);
    } else {
      ExchangeOk(s, t);
    }
  }

  lemma SweepOkStep(s: State, t: Thread)
    requires Inv(s) && t in s.calls && s.calls[t].Sweep? && CanStep(s, s.calls[t])
    ensures Inv(SweepStep(s, t, s.calls[t]))
  {
    hide Inv, KeepNode, DeleteNode;
    if s.calls[t].curr == Null {
      SweepEndOk(s, t);
    } else if BinarySearch(s.calls[t].protected, s.addr[s.calls[t].curr.node]) {
      KeepOk(s, t);
    } else {
      DeleteOk(s, t);
    }
  }
}
