/**
  The global list of orphaned retirements: `add_orphaned_nodes` splices a private list in
  front of the shared one, `reclaim` takes the whole list, deletes what is unprotected and
  gives the rest back.  Every access to the shared head, the counter or a node's link is one
  step; nodes that were deleted may come back as new ones at the same place in memory.
 */
module Orphans {

  type Thread = nat
  type Node = nat
  type Addr = nat

  datatype Ptr = Null | At(node: Node)

  datatype Pc =
    | FindTail(head: Node, count: nat, tail: Node)
    | LoadHead(head: Node, count: nat, tail: Node)
    | SetNext(head: Node, count: nat, tail: Node, seen: Ptr)
    | SwapHead(head: Node, count: nat, tail: Node, seen: Ptr)
    | AddCount(count: nat)
    | Exchange(protected: seq<Addr>)
    | Sweep(protected: seq<Addr>, curr: Ptr, keepHead: Ptr, keepTail: Ptr, reclaimed: nat, keepCount: nat)
    | SubCount(keepHead: Ptr, reclaimed: nat, keepCount: nat)

  /** A node and the object it retires, as a sweep finds them. */
  datatype Retired = Retired(node: Node, addr: Addr)

  /** The history of a sweep: what it took, how far it is, what it kept and what it deleted. */
  datatype Round = Round(protected: seq<Addr>, taken: seq<Retired>, done: nat, kept: seq<Node>, gone: seq<Node>)

  datatype Place = Listed | With(t: Thread)

  /**
    `list`, `held`, `place`, `rounds`, `handed` and `deleted` are history: no step looks at
    them.  `deleted[n]` and `handed[n]` say how often `n` was deleted and handed over.
   */
  datatype State = State(head: Ptr, next: map<Node, Ptr>, addr: map<Node, Addr>, count: int, calls: map<Thread, Pc>,
                         list: seq<Node>, held: map<Thread, seq<Node>>, place: map<Node, Place>,
                         rounds: map<Thread, Round>, handed: multiset<Node>, deleted: multiset<Node>)

  const Initial: State := State(Null, map[], map[], 0, map[], [], map[], map[], map[], multiset{}, multiset{})

  datatype Action =
    | BeginAdd(t: Thread, nodes: seq<Retired>)          // a thread hands over its private list
    | BeginReclaim(t: Thread, protected: seq<Addr>)
    | Step(t: Thread, lucky: bool)                      // a weak compare-and-swap may fail unluckily

  // ---------------------------------------------------------------- binary search

  predicate Sorted(a: seq<Addr>) {
    forall i, j :: 0 <= i <= j < |a| ==> a[i] <= a[j]
  }

  function BinarySearch(a: seq<Addr>, x: Addr): bool
    decreases |a|
  {
    if a == [] then false
    else
      var mid := |a| / 2;
      if a[mid] == x then true
      else if a[mid] < x then BinarySearch(a[mid + 1..], x)
      else BinarySearch(a[..mid], x)
  }

  /** On a sorted argument the search decides membership. */
  lemma {:induction false} SearchFinds(a: seq<Addr>, x: Addr)
    requires Sorted(a)
    ensures BinarySearch(a, x) <==> x in a
    decreases |a|
  {
    if a != [] {
      var mid := |a| / 2;
      SearchFinds(a[mid + 1..], x);
      SearchFinds(a[..mid], x);
      assert a == a[..mid] + [a[mid]] + a[mid + 1..];
    }
  }

  // ---------------------------------------------------------------- steps

  function Names(rs: seq<Retired>): seq<Node> {
    seq(|rs|, i requires 0 <= i < |rs| => rs[i].node)
  }

  predicate Distinct(s: seq<Node>) {
    forall i, j :: 0 <= i < j < |s| ==> s[i] != s[j]
  }

  /** The links of a private list, as its owner built them. */
  function Links(s: seq<Node>): map<Node, Ptr> {
    if s == [] then map[]
    else Links(s[1..])[s[0] := if |s| == 1 then Null else At(s[1])]
  }

  function Addrs(rs: seq<Retired>): map<Node, Addr> {
    if rs == [] then map[] else Addrs(rs[1..])[rs[0].node := rs[0].addr]
  }

  predicate Enabled(s: State, a: Action) {
    match a
    case BeginAdd(t, nodes) =>
      && t !in s.calls && nodes != [] && Distinct(Names(nodes))
      && forall n :: n in Names(nodes) ==> n !in s.place
    case BeginReclaim(t, protected) => t !in s.calls && Sorted(protected)
    case Step(t, lucky) => t in s.calls && CanStep(s, s.calls[t])
  }

  /** The pointers the step follows are not null and lead to a node. */
  predicate CanStep(s: State, p: Pc) {
    match p
    case FindTail(h, c, tail) => tail in s.next
    case SetNext(h, c, tail, seen) => tail in s.next
    case Sweep(prot, curr, kh, kt, r, k) =>
      curr.At? ==> curr.node in s.next && curr.node in s.addr && (kt.At? ==> kt.node in s.next)
    case _ => true
  }

  function BeginAddStep(s: State, t: Thread, nodes: seq<Retired>): State
    requires nodes != []
  {
    var names := Names(nodes);
    s.(next := s.next + Links(names), addr := s.addr + Addrs(nodes),
       calls := s.calls[t := FindTail(names[0], |names|, names[0])],
       held := s.held[t := names],
       place := map n | n in s.place.Keys + (set n | n in names) :: if n in names then With(t) else s.place[n],
       handed := s.handed + multiset(names))
  }

  function SwapHeadStep(s: State, t: Thread, p: Pc, lucky: bool): State
    requires p.SwapHead?
  {
    if lucky && s.head == p.seen then
      s.(head := At(p.head), calls := s.calls[t := AddCount(p.count)],
         list := Held(s, t) + s.list, held := s.held[t := []],
         place := map n | n in s.place :: if s.place[n] == With(t) then Listed else s.place[n])
    else s.(calls := s.calls[t := SetNext(p.head, p.count, p.tail, s.head)])
  }

  function Held(s: State, t: Thread): seq<Node> {
    if t in s.held then s.held[t] else []
  }

  function ExchangeStep(s: State, t: Thread, p: Pc): State
    requires p.Exchange?
  {
    if s.head == Null then s.(calls := s.calls - {t}, held := s.held - {t})
    else
      s.(head := Null, calls := s.calls[t := Sweep(p.protected, s.head, Null, Null, 0, 0)],
         list := [], held := s.held[t := s.list],
         place := map n | n in s.place :: if s.place[n] == Listed then With(t) else s.place[n],
         rounds := s.rounds[t := Round(p.protected, Found(s.addr, s.list), 0, [], [])])
  }

  function Found(addr: map<Node, Addr>, list: seq<Node>): seq<Retired> {
    seq(|list|, i requires 0 <= i < |list| => Retired(list[i], if list[i] in addr then addr[list[i]] else 0))
  }

  function DeleteNode(s: State, t: Thread, p: Pc): State
    requires p.Sweep? && p.curr.At? && p.curr.node in s.next
  {
    var n, k := p.curr.node, p.keepCount;
    var held := Held(s, t);
    s.(next := s.next - {n}, addr := s.addr - {n},
       calls := s.calls[t := p.(curr := s.next[n], reclaimed := p.reclaimed + 1)],
       held := s.held[t := if k < |held| then held[..k] + held[k + 1..] else held],
       place := s.place - {n}, deleted := s.deleted + multiset{n},
       rounds := if t in s.rounds
                 then s.rounds[t := s.rounds[t].(done := s.rounds[t].done + 1, gone := s.rounds[t].gone + [n])]
                 else s.rounds)
  }

  function KeepNode(s: State, t: Thread, p: Pc): State
    requires p.Sweep? && p.curr.At? && p.curr.node in s.next
  {
    var n := p.curr.node;
    var linked := if p.keepTail.At? then s.next[p.keepTail.node := p.curr] else s.next;
    s.(next := linked[n := Null],
       calls := s.calls[t := p.(curr := s.next[n], keepHead := if p.keepHead.At? then p.keepHead else p.curr,
                                keepTail := p.curr, keepCount := p.keepCount + 1)],
       rounds := if t in s.rounds
                 then s.rounds[t := s.rounds[t].(done := s.rounds[t].done + 1, kept := s.rounds[t].kept + [n])]
                 else s.rounds)
  }

  function SweepStep(s: State, t: Thread, p: Pc): State
    requires p.Sweep? && CanStep(s, p)
  {
    if p.curr == Null then s.(calls := s.calls[t := SubCount(p.keepHead, p.reclaimed, p.keepCount)])
    else if BinarySearch(p.protected, s.addr[p.curr.node]) then KeepNode(s, t, p)
    else DeleteNode(s, t, p)
  }

  function SubCountStep(s: State, t: Thread, p: Pc): State
    requires p.SubCount?
  {
    var s' := s.(count := s.count - (p.reclaimed + p.keepCount));
    if p.keepHead.At? then s'.(calls := s.calls[t := FindTail(p.keepHead.node, p.keepCount, p.keepHead.node)])
    else s'.(calls := s.calls - {t}, held := s.held - {t})
  }

  function StepOf(s: State, t: Thread, lucky: bool): State
    requires t in s.calls && CanStep(s, s.calls[t])
  {
    match s.calls[t]
    case FindTail(h, c, tail) =>
      if s.next[tail].At? then s.(calls := s.calls[t := FindTail(h, c, s.next[tail].node)])
      else s.(calls := s.calls[t := LoadHead(h, c, tail)])
    case LoadHead(h, c, tail) => s.(calls := s.calls[t := SetNext(h, c, tail, s.head)])
    case SetNext(h, c, tail, seen) =>
      s.(next := s.next[tail := seen], calls := s.calls[t := SwapHead(h, c, tail, seen)])
    case SwapHead(h, c, tail, seen) => SwapHeadStep(s, t, s.calls[t], lucky)
    case AddCount(c) => s.(count := s.count + c, calls := s.calls - {t}, held := s.held - {t})
    case Exchange(prot) => ExchangeStep(s, t, s.calls[t])
    case Sweep(prot, curr, kh, kt, r, k) => SweepStep(s, t, s.calls[t])
    case SubCount(kh, r, k) => SubCountStep(s, t, s.calls[t])
  }

  function After(s: State, a: Action): State
    requires Enabled(s, a)
  {
    match a
    case BeginAdd(t, nodes) => BeginAddStep(s, t, nodes)
    case BeginReclaim(t, protected) => s.(calls := s.calls[t := Exchange(protected)], held := s.held[t := []])
    case Step(t, lucky) => StepOf(s, t, lucky)
  }

  // ---------------------------------------------------------------- chains

  /** The links lead from `p` through `s` and end at `end`. */
  ghost predicate Chain(next: map<Node, Ptr>, p: Ptr, s: seq<Node>, end: Ptr)
    decreases |s|
  {
    if s == [] then p == end else p == At(s[0]) && s[0] in next && Chain(next, next[s[0]], s[1..], end)
  }

  lemma {:induction false} ChainSame(next: map<Node, Ptr>, next': map<Node, Ptr>, p: Ptr, s: seq<Node>, end: Ptr)
    requires Chain(next, p, s, end) && forall n :: n in s && n in next ==> n in next' && next'[n] == next[n]
    ensures Chain(next', p, s, end)
    decreases |s|
  {
    if s != [] {
      assert s[0] in s;
      ChainSame(next, next', next[s[0]], s[1..], end);
    }
  }

  lemma {:induction false} ChainJoin(next: map<Node, Ptr>, p: Ptr, a: seq<Node>, mid: Ptr, b: seq<Node>, end: Ptr)
    requires Chain(next, p, a, mid) && Chain(next, mid, b, end)
    ensures Chain(next, p, a + b, end)
    decreases |a|
  {
    if a == [] {
      assert a + b == b;
    } else {
      ChainJoin(next, next[a[0]], a[1..], mid, b, end);
      assert (a + b)[1..] == a[1..] + b;
    }
  }

  /** Changing the last link moves the end. */
  lemma {:induction false} ChainRetarget(next: map<Node, Ptr>, p: Ptr, s: seq<Node>, end: Ptr, end': Ptr)
    requires Chain(next, p, s, end) && s != [] && Distinct(s)
    ensures Chain(next[s[|s| - 1] := end'], p, s, end')
    decreases |s|
  {
    if |s| > 1 {
      ChainRetarget(next, next[s[0]], s[1..], end, end');
      assert s[1..][|s| - 2] == s[|s| - 1];
    }
  }

  lemma {:induction false} ChainNodes(next: map<Node, Ptr>, p: Ptr, s: seq<Node>, end: Ptr, i: nat)
    requires Chain(next, p, s, end) && i < |s|
    ensures s[i] in next && next[s[i]] == if i + 1 < |s| then At(s[i + 1]) else end
    ensures p == At(s[0])
    decreases |s|
  {
    if i > 0 {
      ChainNodes(next, next[s[0]], s[1..], end, i - 1);
    }
  }

  lemma {:induction false} LinksChain(s: seq<Node>)
    requires s != [] && Distinct(s)
    ensures Chain(Links(s), At(s[0]), s, Null) && Links(s).Keys == set n | n in s
    decreases |s|
  {
    if |s| > 1 {
      LinksChain(s[1..]);
      ChainSame(Links(s[1..]), Links(s), At(s[1]), s[1..], Null);
      assert s == [s[0]] + s[1..];
    } else {
      assert Links(s) == map[s[0] := Null];
    }
  }

  lemma {:induction false} AddrsKeys(rs: seq<Retired>)
    ensures Addrs(rs).Keys == set n | n in Names(rs)
  {
    if rs != [] {
      AddrsKeys(rs[1..]);
      assert Names(rs) == [rs[0].node] + Names(rs[1..]);
    }
  }
}
