/** The guarantees of the orphan list over whole runs. */
module OrphansRuns {
  import opened MapSums
  import opened Orphans
  import opened OrphansInvariant

  ghost predicate IsRun(states: seq<State>, actions: seq<Action>) {
    && |states| == |actions| + 1 && states[0] == Initial
    && forall i :: 0 <= i < |actions| ==>
         Enabled(states[i], actions[i]) && states[i + 1] == After(states[i], actions[i])
  }

  lemma {:induction false} RunInv(states: seq<State>, actions: seq<Action>, i: nat)
    requires IsRun(states, actions) && i <= |actions|
    ensures Inv(states[i])
  {
    hide Inv, After;
    if i == 0 {
      InitialInv();
    } else {
      RunInv(states, actions, i - 1);
      StepInv(states[i - 1], actions[i - 1]);
    }
  }

  lemma InitialInv()
    ensures Inv(Initial)
  {
  }

  /** A node that is around is on the list or with one call, and there once. */
  ghost predicate InOnePlace(s: State, n: Node) {
    || (n in s.list && forall t :: t in s.held ==> n !in s.held[t])
    || (n !in s.list
        && exists t :: t in s.held && n in s.held[t] && forall u :: u in s.held && u != t ==> n !in s.held[u])
  }

  /** Each hand-over of a node is on the list, with one call, or was deleted exactly once. */
  lemma HandedOnceDeletedOnce(states: seq<State>, actions: seq<Action>, i: nat, n: Node)
    requires IsRun(states, actions) && i <= |actions|
    ensures var s := states[i];
            || (s.handed[n] == s.deleted[n] && n !in s.list && forall t :: t in s.held ==> n !in s.held[t])
            || (s.handed[n] == s.deleted[n] + 1 && InOnePlace(s, n))
  {
    hide After, CallsOk, Chain;
    RunInv(states, actions, i);
    var s := states[i];
    forall t | t in s.held && n in s.held[t]
      ensures n in s.place && s.place[n] == With(t)
    {
      assert Holds(s.place, With(t), s.held[t]);
    }
    if n in s.place && s.place[n] != Listed {
      assert Holds(s.place, With(s.place[n].t), s.held[s.place[n].t]);
    }
  }

  /** Every call in progress can go on: what it follows is a node that was not deleted. */
  lemma RunNeverDangles(states: seq<State>, actions: seq<Action>, i: nat, t: Thread)
    requires IsRun(states, actions) && i <= |actions| && t in states[i].calls
    ensures CanStep(states[i], states[i].calls[t])
  {
    RunInv(states, actions, i);
    NoDangling(states[i], t);
  }

  // ---------------------------------------------------------------- what a sweep does

  lemma {:induction false} FilterSizes(protected: seq<Addr>, rs: seq<Retired>)
    ensures |Filter(protected, rs, true)| + |Filter(protected, rs, false)| == |rs|
  {
    hide BinarySearch;
    if rs != [] {
      FilterSizes(protected, rs[..|rs| - 1]);
    }
  }

  lemma {:induction false} FilterHolds(protected: seq<Addr>, rs: seq<Retired>, i: nat)
    requires Sorted(protected) && i < |rs|
    ensures rs[i].node in Filter(protected, rs, rs[i].addr in protected)
  {
    hide BinarySearch, Sorted;
    var n := |rs| - 1;
    if i < n {
      FilterHolds(protected, rs[..n], i);
    } else {
      SearchFinds(protected, rs[n].addr);
    }
  }

  lemma FilterSplits(protected: seq<Addr>, rs: seq<Retired>)
    requires Sorted(protected)
    ensures |Filter(protected, rs, true)| + |Filter(protected, rs, false)| == |rs|
    ensures forall i :: 0 <= i < |rs| ==> rs[i].node in Filter(protected, rs, rs[i].addr in protected)
  {
    hide Filter, Sorted;
    FilterSizes(protected, rs);
    forall i | 0 <= i < |rs|
      ensures rs[i].node in Filter(protected, rs, rs[i].addr in protected)
    {
      FilterHolds(protected, rs, i);
    }
  }

  // ---------------------------------------------------------------- the counter

  /** Nodes that are on the list and not yet counted. */
  function Plus(p: Pc): nat {
    if p.AddCount? then p.count else 0
  }

  /** Nodes that were taken off the list and are still counted. */
  function Minus(p: Pc, rounds: map<Thread, Round>, t: Thread): nat {
    if (p.Sweep? || p.SubCount?) && t in rounds then |rounds[t].taken| else 0
  }

  ghost function Pluses(s: State): map<Thread, nat> {
    map t | t in s.calls :: Plus(s.calls[t])
  }

  ghost function Minuses(s: State): map<Thread, nat> {
    map t | t in s.calls :: Minus(s.calls[t], s.rounds, t)
  }

  function PlusAt(s: State, t: Thread): nat {
    if t in s.calls then Plus(s.calls[t]) else 0
  }

  function MinusAt(s: State, t: Thread): nat {
    if t in s.calls then Minus(s.calls[t], s.rounds, t) else 0
  }

  ghost predicate CountOk(s: State) {
    |s.list| + Sum(Minuses(s)) == s.count + Sum(Pluses(s))
  }

  ghost predicate SameCalls(s: State, s': State, t: Thread) {
    forall u :: u != t ==>
      && (u in s.calls <==> u in s'.calls)
      && (u in s.calls ==> s'.calls[u] == s.calls[u])
      && (u in s.rounds <==> u in s'.rounds)
      && (u in s.rounds ==> s'.rounds[u] == s.rounds[u])
  }

  lemma ValueMoves(m: map<Thread, nat>, m': map<Thread, nat>, t: Thread)
    requires forall u :: u != t ==> (u in m <==> u in m') && (u in m ==> m'[u] == m[u])
    ensures Sum(m') + (if t in m then m[t] else 0) == Sum(m) + (if t in m' then m'[t] else 0)
  {
    assert m - {t} == m' - {t};
    if t in m {
      SumRemove(m, t);
    } else {
      assert m - {t} == m;
    }
    if t in m' {
      SumRemove(m', t);
    } else {
      assert m' - {t} == m';
    }
  }

  lemma SumsMove(s: State, s': State, t: Thread)
    requires SameCalls(s, s', t)
    ensures Sum(Pluses(s')) + PlusAt(s, t) == Sum(Pluses(s)) + PlusAt(s', t)
    ensures Sum(Minuses(s')) + MinusAt(s, t) == Sum(Minuses(s)) + MinusAt(s', t)
  {
    ValueMoves(Pluses(s), Pluses(s'), t);
    ValueMoves(Minuses(s), Minuses(s'), t);
  }

  lemma SweepSameCalls(s: State, t: Thread)
    requires t in s.calls && s.calls[t].Sweep? && CanStep(s, s.calls[t])
    ensures SameCalls(s, SweepStep(s, t, s.calls[t]), t)
  {
  }

  lemma SwapSameCalls(s: State, t: Thread, lucky: bool)
    requires t in s.calls && s.calls[t].SwapHead?
    ensures SameCalls(s, SwapHeadStep(s, t, s.calls[t], lucky), t)
  {
  }

  lemma ListSameCalls(s: State, t: Thread, lucky: bool)
    requires t in s.calls
    ensures s.calls[t].SwapHead? ==> SameCalls(s, SwapHeadStep(s, t, s.calls[t], lucky), t)
    ensures s.calls[t].Exchange? ==> SameCalls(s, ExchangeStep(s, t, s.calls[t]), t)
    ensures s.calls[t].SubCount? ==> SameCalls(s, SubCountStep(s, t, s.calls[t]), t)
  {
    if s.calls[t].SwapHead? {
      SwapSameCalls(s, t, lucky);
    }
    hide SwapHeadStep;
  }

  lemma QuietSameCalls(s: State, t: Thread, lucky: bool)
    requires t in s.calls && CanStep(s, s.calls[t])
    requires s.calls[t].FindTail? || s.calls[t].LoadHead? || s.calls[t].SetNext? || s.calls[t].AddCount?
    ensures SameCalls(s, StepOf(s, t, lucky), t)
  {
    hide SweepStep, SubCountStep, SwapHeadStep, ExchangeStep;
  }

  lemma BeginSameCalls(s: State, a: Action)
    requires Enabled(s, a) && !a.Step?
    ensures SameCalls(s, After(s, a), a.t)
  {
  }

  lemma StepSameCalls(s: State, a: Action)
    requires Enabled(s, a)
    ensures SameCalls(s, After(s, a), a.t)
  {
    hide SweepStep, SubCountStep, SwapHeadStep, ExchangeStep, BeginAddStep, SameCalls;
    if !a.Step? {
      BeginSameCalls(s, a);
    } else if s.calls[a.t].Sweep? {
      SweepSameCalls(s, a.t);
    } else if s.calls[a.t].SwapHead? || s.calls[a.t].Exchange? || s.calls[a.t].SubCount? {
      ListSameCalls(s, a.t, a.lucky);
    } else {
      QuietSameCalls(s, a.t, a.lucky);
    }
  }

  /** How one step moves the list, the counter and the caller's own difference. */
  ghost predicate Balanced(s: State, s': State, t: Thread) {
    |s'.list| - |s.list| + MinusAt(s', t) - MinusAt(s, t) == s'.count - s.count + PlusAt(s', t) - PlusAt(s, t)
  }

  lemma SweepBalance(s: State, t: Thread)
    requires t in s.calls && s.calls[t].Sweep? && CanStep(s, s.calls[t])
    ensures Balanced(s, SweepStep(s, t, s.calls[t]), t)
  {
  }

  lemma SubCountBalance(s: State, t: Thread)
    requires t in s.calls && t in s.held && s.calls[t].SubCount? && PcOk(s, t)
    ensures Balanced(s, SubCountStep(s, t, s.calls[t]), t)
  {
    hide Chain;
    var r := s.rounds[t];
    assert r.taken[..r.done] == r.taken;
    RestEmpty(r);
    FilterSplits(r.protected, r.taken);
  }

  lemma ListBalance(s: State, t: Thread, lucky: bool)
    requires t in s.calls && t in s.held && PcOk(s, t)
    ensures s.calls[t].SwapHead? ==> Balanced(s, SwapHeadStep(s, t, s.calls[t], lucky), t)
    ensures s.calls[t].Exchange? && (s.head == Null ==> s.list == []) ==> Balanced(s, ExchangeStep(s, t, s.calls[t]), t)
  {
    hide Chain;
  }

  lemma EmptyList(s: State)
    requires Chain(s.next, s.head, s.list, Null) && s.head == Null
    ensures s.list == []
  {
  }

  lemma StepBalance(s: State, a: Action)
    requires Inv(s) && Enabled(s, a)
    ensures Balanced(s, After(s, a), a.t)
  {
    hide PlacesOk, HandedOk, CallsOk, Chain, SweepStep, SubCountStep, SwapHeadStep, ExchangeStep;
    match a
    case BeginAdd(t, nodes) =>
    case BeginReclaim(t, protected) =>
    case Step(t, lucky) =>
      Keys(s, t);
      if s.head == Null {
        EmptyList(s);
      }
      match s.calls[t]
      case Sweep(prot, curr, kh, kt, r, k) => SweepBalance(s, t);
      case SubCount(kh, r, k) => SubCountBalance(s, t);
      case SwapHead(h, c, tail, seen) => ListBalance(s, t, lucky);
      case Exchange(prot) => ListBalance(s, t, lucky);
      case _ =>
  }

  lemma StepCount(s: State, a: Action)
    requires Inv(s) && CountOk(s) && Enabled(s, a)
    ensures CountOk(After(s, a))
  {
    hide Inv, After, Pluses, Minuses, PlusAt, MinusAt, SameCalls;
    StepSameCalls(s, a);
    SumsMove(s, After(s, a), a.t);
    StepBalance(s, a);
  }

  lemma {:induction false} RunCount(states: seq<State>, actions: seq<Action>, i: nat)
    requires IsRun(states, actions) && i <= |actions|
    ensures CountOk(states[i])
  {
    hide Inv, After, Pluses, Minuses;
    if i == 0 {
      InitialCount();
    } else {
      RunCount(states, actions, i - 1);
      RunInv(states, actions, i - 1);
      StepCount(states[i - 1], actions[i - 1]);
    }
  }

  lemma InitialCount()
    ensures CountOk(Initial)
  {
    assert Pluses(Initial) == map[] && Minuses(Initial) == map[];
  }

  /** When no call is in progress the counter is the length of the list. */
  lemma IdleCount(states: seq<State>, actions: seq<Action>, i: nat)
    requires IsRun(states, actions) && i <= |actions| && states[i].calls == map[]
    ensures states[i].count == |states[i].list|
    ensures Chain(states[i].next, states[i].head, states[i].list, Null)
  {
    hide After;
    RunCount(states, actions, i);
    RunInv(states, actions, i);
    assert Pluses(states[i]) == map[] && Minuses(states[i]) == map[];
  }

  // ---------------------------------------------------------------- what moves nodes

  /** Step `i` is a successful swap of the shared head by `t`. */
  predicate Splices(s: State, a: Action, t: Thread) {
    && a.Step? && a.t == t && t in s.calls && s.calls[t].SwapHead?
    && a.lucky && s.calls[t].seen == s.head
  }

  predicate Empties(s: State, a: Action, t: Thread) {
    a.Step? && a.t == t && t in s.calls && s.calls[t].Exchange?
  }

  /**
    A hand-over puts its nodes with the caller; the successful swap puts what the caller holds in
    front of the list; an exchange moves the whole list to the caller; nothing else changes the list.
   */
  lemma ListMoves(states: seq<State>, actions: seq<Action>, i: nat, t: Thread)
    requires IsRun(states, actions) && i < |actions|
    ensures ListMoved(states[i], actions[i], states[i + 1], t)
  {
    hide ListMoved, PlacesOk, HandedOk, CallsOk, Chain, After;
    var s, a := states[i], actions[i];
    RunInv(states, actions, i);
    if a.Step? && a.t in s.calls && (s.calls[a.t].Exchange? || s.calls[a.t].SwapHead?) {
      if s.head == Null {
        EmptyList(s);
      }
      SharedMoves(s, a, t);
    } else {
      PrivateMoves(s, a, t);
    }
  }

  ghost predicate ListMoved(s: State, a: Action, s': State, t: Thread) {
    && (a.BeginAdd? && a.t == t ==> Held(s', t) == Names(a.nodes))
    && (Splices(s, a, t) ==> s'.list == Held(s, t) + s.list && Held(s', t) == [])
    && (Empties(s, a, t) ==> s'.list == [] && Held(s', t) == s.list)
    && (s'.list != s.list ==> a.Step? && (Splices(s, a, a.t) || Empties(s, a, a.t)))
  }

  lemma SharedMoves(s: State, a: Action, t: Thread)
    requires Enabled(s, a) && a.Step? && (s.calls[a.t].Exchange? || s.calls[a.t].SwapHead?)
    requires s.head == Null ==> s.list == []
    ensures ListMoved(s, a, After(s, a), t)
  {
    hide SweepStep, SubCountStep, BeginAddStep, Found;
  }

  lemma PrivateMoves(s: State, a: Action, t: Thread)
    requires Enabled(s, a) && (a.Step? ==> !s.calls[a.t].Exchange? && !s.calls[a.t].SwapHead?)
    ensures ListMoved(s, a, After(s, a), t)
  {
    hide SwapHeadStep, ExchangeStep, BinarySearch, Links, Addrs;
  }

  // ---------------------------------------------------------------- one call of reclaim

  /** The argument of the last call of `reclaim` that `t` began in the first `i` steps. */
  ghost function Argument(actions: seq<Action>, t: Thread, i: nat): seq<Addr>
    requires i <= |actions|
  {
    if i == 0 then []
    else if actions[i - 1].BeginReclaim? && actions[i - 1].t == t then actions[i - 1].protected
    else Argument(actions, t, i - 1)
  }

  /** The next step of `t` deletes the node it looks at. */
  predicate Deletes(s: State, a: Action, t: Thread) {
    && a.Step? && a.t == t && t in s.calls && s.calls[t].Sweep? && s.calls[t].curr.At?
    && s.calls[t].curr.node in s.addr && !BinarySearch(s.calls[t].protected, s.addr[s.calls[t].curr.node])
  }

  /** The nodes `t` has deleted since it began that call. */
  ghost function DeletedSince(states: seq<State>, actions: seq<Action>, t: Thread, i: nat): seq<Node>
    requires i <= |actions| < |states|
  {
    if i == 0 || (actions[i - 1].BeginReclaim? && actions[i - 1].t == t) then []
    else
      var ns := DeletedSince(states, actions, t, i - 1);
      if Deletes(states[i - 1], actions[i - 1], t) then ns + [states[i - 1].calls[t].curr.node] else ns
  }

  /** The round a call of `reclaim` keeps is that of its own argument and its own deletions. */
  ghost predicate OwnRound(s: State, t: Thread, arg: seq<Addr>, gone: seq<Node>) {
    t in s.calls ==>
      && (s.calls[t].Exchange? ==> s.calls[t].protected == arg && gone == [])
      && (s.calls[t].Sweep? ==> s.calls[t].protected == arg)
      && (s.calls[t].Sweep? || s.calls[t].SubCount? ==>
            && t in s.rounds && s.rounds[t].protected == arg && s.rounds[t].gone == gone
            && Distinct(Names(s.rounds[t].taken)))
  }

  lemma ExchangeRound(s: State, t: Thread, arg: seq<Addr>)
    requires Inv(s) && t in s.calls && s.calls[t].Exchange? && OwnRound(s, t, arg, [])
    ensures OwnRound(ExchangeStep(s, t, s.calls[t]), t, arg, [])
  {
    hide Chain, CallsOk, HandedOk;
    FoundNames(s.addr, s.list);
  }

  lemma SweepRound(s: State, t: Thread, arg: seq<Addr>, gone: seq<Node>, lucky: bool)
    requires t in s.calls && s.calls[t].Sweep? && CanStep(s, s.calls[t]) && OwnRound(s, t, arg, gone)
    ensures OwnRound(SweepStep(s, t, s.calls[t]), t, arg,
                     if Deletes(s, Step(t, lucky), t) then gone + [s.calls[t].curr.node] else gone)
  {
    hide BinarySearch;
  }

  lemma OtherRound(s: State, a: Action, t: Thread, arg: seq<Addr>, gone: seq<Node>)
    requires Enabled(s, a) && a.t != t && OwnRound(s, t, arg, gone)
    ensures OwnRound(After(s, a), t, arg, gone)
  {
    hide After;
    StepSameCalls(s, a);
  }

  lemma QuietRound(s: State, t: Thread, lucky: bool, arg: seq<Addr>, gone: seq<Node>)
    requires t in s.calls && CanStep(s, s.calls[t])
    requires !s.calls[t].Sweep? && !s.calls[t].Exchange? && !s.calls[t].SwapHead?
    ensures OwnRound(StepOf(s, t, lucky), t, arg, gone)
  {
    hide SweepStep, ExchangeStep, SwapHeadStep;
  }

  lemma RoundStep(s: State, a: Action, t: Thread, arg: seq<Addr>, gone: seq<Node>)
    requires Inv(s) && Enabled(s, a) && OwnRound(s, t, arg, gone)
    ensures OwnRound(After(s, a), t,
                     if a.BeginReclaim? && a.t == t then a.protected else arg,
                     if a.BeginReclaim? && a.t == t then []
                     else if Deletes(s, a, t) then gone + [s.calls[t].curr.node] else gone)
  {
    hide Inv, SweepStep, ExchangeStep, SwapHeadStep, SubCountStep, BeginAddStep;
    if a.t != t {
      OtherRound(s, a, t, arg, gone);
    } else if a.Step? {
      if s.calls[t].Sweep? {
        SweepRound(s, t, arg, gone, a.lucky);
      } else if s.calls[t].Exchange? {
        ExchangeFirst(s, t, arg, gone);
        ExchangeRound(s, t, arg);
      } else if s.calls[t].SwapHead? {
        SwapRound(s, t, a.lucky, arg, gone);
      } else {
        QuietRound(s, t, a.lucky, arg, gone);
      }
      hide OwnRound;
    } else if a.BeginAdd? {
      AddRound(s, t, a.nodes, arg, gone);
      hide OwnRound;
    }
  }

  lemma ExchangeFirst(s: State, t: Thread, arg: seq<Addr>, gone: seq<Node>)
    requires t in s.calls && s.calls[t].Exchange? && OwnRound(s, t, arg, gone)
    ensures gone == []
  {
  }

  lemma SwapRound(s: State, t: Thread, lucky: bool, arg: seq<Addr>, gone: seq<Node>)
    requires t in s.calls && s.calls[t].SwapHead?
    ensures OwnRound(SwapHeadStep(s, t, s.calls[t], lucky), t, arg, gone)
  {
  }

  lemma AddRound(s: State, t: Thread, nodes: seq<Retired>, arg: seq<Addr>, gone: seq<Node>)
    requires nodes != []
    ensures OwnRound(BeginAddStep(s, t, nodes), t, arg, gone)
  {
  }

  lemma {:induction false} RunRound(states: seq<State>, actions: seq<Action>, i: nat, t: Thread)
    requires IsRun(states, actions) && i <= |actions|
    ensures OwnRound(states[i], t, Argument(actions, t, i), DeletedSince(states, actions, t, i))
  {
    hide Inv, After, OwnRound, Deletes, Enabled;
    if i == 0 {
      NoRound(t);
    } else {
      var k := i - 1;
      RunRound(states, actions, k, t);
      RunInv(states, actions, k);
      assert Enabled(states[k], actions[k]) && states[k + 1] == After(states[k], actions[k]);
      RoundStep(states[k], actions[k], t, Argument(actions, t, k), DeletedSince(states, actions, t, k));
    }
  }

  lemma NoRound(t: Thread)
    ensures OwnRound(Initial, t, [], [])
  {
  }

  lemma StepDeletes(s: State, a: Action, t: Thread)
    requires Enabled(s, a)
    ensures forall n :: s.deleted[n] <= After(s, a).deleted[n]
    ensures Deletes(s, a, t) ==> After(s, a).deleted[s.calls[t].curr.node] > 0
  {
    hide SwapHeadStep, ExchangeStep, SubCountStep, BeginAddStep;
    OtherDeleted(s, a);
  }

  lemma OtherDeleted(s: State, a: Action)
    requires Enabled(s, a)
    ensures a.BeginAdd? ==> BeginAddStep(s, a.t, a.nodes).deleted == s.deleted
    ensures a.Step? && s.calls[a.t].SwapHead? ==> SwapHeadStep(s, a.t, s.calls[a.t], a.lucky).deleted == s.deleted
    ensures a.Step? && s.calls[a.t].Exchange? ==> ExchangeStep(s, a.t, s.calls[a.t]).deleted == s.deleted
    ensures a.Step? && s.calls[a.t].SubCount? ==> SubCountStep(s, a.t, s.calls[a.t]).deleted == s.deleted
  {
  }

  lemma {:induction false} DeletedAre(states: seq<State>, actions: seq<Action>, t: Thread, i: nat)
    requires IsRun(states, actions) && i <= |actions|
    ensures forall n :: n in DeletedSince(states, actions, t, i) ==> states[i].deleted[n] > 0
  {
    hide After, Deletes, Enabled;
    if i > 0 {
      var k := i - 1;
      DeletedAre(states, actions, t, k);
      assert Enabled(states[k], actions[k]) && states[k + 1] == After(states[k], actions[k]);
      StepDeletes(states[k], actions[k], t);
    }
  }

  /**
    When a sweep is over, the call holds exactly the nodes, taken once each, whose objects are
    in its sorted argument, and the nodes it has deleted since it began are exactly the others.
   */
  lemma SweepIsExact(states: seq<State>, actions: seq<Action>, i: nat, t: Thread)
    requires IsRun(states, actions) && i <= |actions| && t in states[i].calls && states[i].calls[t].SubCount?
    ensures var s, protected := states[i], Argument(actions, t, i);
            && t in s.rounds && t in s.held
            && (var r := s.rounds[t];
                && Distinct(Names(r.taken)) && |r.kept| + |r.gone| == |r.taken|
                && s.held[t] == r.kept && r.gone == DeletedSince(states, actions, t, i)
                && (forall n :: n in r.gone ==> s.deleted[n] > 0)
                && s.calls[t].keepCount == |r.kept| && s.calls[t].reclaimed == |r.gone|
                && forall k :: 0 <= k < |r.taken| ==>
                     r.taken[k].node in if r.taken[k].addr in protected then r.kept else r.gone)
  {
    hide After, Inv, Deletes;
    RunInv(states, actions, i);
    RunRound(states, actions, i, t);
    DeletedAre(states, actions, t, i);
    var s := states[i];
    Keys(s, t);
    var r := s.rounds[t];
    assert r.taken[..r.done] == r.taken;
    RestEmpty(r);
    FilterSplits(r.protected, r.taken);
  }
}
