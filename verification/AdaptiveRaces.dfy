/**
  Accuracy guards access by access: the constructor reads the mode, counts itself and may
  migrate; the destructor counts down and may migrate back.  Calls that do not overlap behave
  as the events of `AdaptiveGuards`; for calls that do, the races that defeat a guard are exact.
 */
module AdaptiveRaces {
  import opened AdaptiveQueue
  import opened AdaptiveGuards
  import opened Wrappers

  /** Where a guard is between the accesses of its constructor and destructor. */
  datatype GuardCall =
    | Found(previous: Mode)      // has read the mode
    | Moving(previous: Mode)     // has counted itself and is about to migrate
    | Guarding(previous: Mode)   // constructed
    | Leaving(previous: Mode)    // has counted down and is about to migrate back

  datatype Shared = Shared(mode: Mode, count: int, calls: map<GuardId, GuardCall>)

  datatype Access =
    | ReadMode(id: GuardId)
    | CountUp(id: GuardId)
    | MoveIn(id: GuardId)
    | CountDown(id: GuardId)
    | MoveOut(id: GuardId)
    | SwitchTo(target: Mode)

  predicate CanAccess(s: Shared, a: Access) {
    match a
    case ReadMode(id) => id !in s.calls
    case CountUp(id) => id in s.calls && s.calls[id].Found?
    case MoveIn(id) => id in s.calls && s.calls[id].Moving?
    case CountDown(id) => id in s.calls && s.calls[id].Guarding?
    case MoveOut(id) => id in s.calls && s.calls[id].Leaving?
    case SwitchTo(m) => true
  }

  function AfterAccess(s: Shared, a: Access): Shared
    requires CanAccess(s, a)
  {
    match a
    case ReadMode(id) => s.(calls := s.calls[id := Found(s.mode)])
    case CountUp(id) =>
      var p := s.calls[id].previous;
      var c := if s.count == 0 && p != MutexMode then Moving(p) else Guarding(p);
      s.(count := s.count + 1, calls := s.calls[id := c])
    case MoveIn(id) => s.(mode := MutexMode, calls := s.calls[id := Guarding(s.calls[id].previous)])
    case CountDown(id) =>
      var p := s.calls[id].previous;
      var calls := if s.count == 1 && p != MutexMode then s.calls[id := Leaving(p)] else s.calls - {id};
      s.(count := s.count - 1, calls := calls)
    case MoveOut(id) => s.(mode := s.calls[id].previous, calls := s.calls - {id})
    case SwitchTo(m) => s.(mode := m)
  }

  ghost predicate IsAccessRun(ss: seq<Shared>, accesses: seq<Access>) {
    && |ss| == |accesses| + 1 && ss[0].count == 0 && ss[0].calls == map[]
    && forall i :: 0 <= i < |accesses| ==> CanAccess(ss[i], accesses[i]) && ss[i + 1] == AfterAccess(ss[i], accesses[i])
  }

  /** Guard `id` is constructed and not yet destroyed. */
  predicate Holds(s: Shared, id: GuardId) {
    id in s.calls && s.calls[id].Guarding?
  }

  ghost predicate AnyHeld(s: Shared) {
    exists id :: Holds(s, id)
  }

  /** Every constructed guard finds the queue in mutex mode. */
  ghost predicate Accurate(s: Shared) {
    AnyHeld(s) ==> s.mode == MutexMode
  }

  // ---------------------------------------------------------------- the races

  /** A guard is constructed without migrating although the queue is in lock-free mode. */
  predicate SkipsMove(s: Shared, a: Access) {
    a.CountUp? && CanAccess(s, a) && s.mode == LockFreeMode && (s.count != 0 || s.calls[a.id].previous == MutexMode)
  }

  /** A destructor migrates back, or a caller switches, while a guard is held. */
  ghost predicate PullsAway(s: Shared, a: Access) {
    AnyHeld(s) && (a.MoveOut? || a == SwitchTo(LockFreeMode))
  }

  ghost predicate Races(s: Shared, a: Access) {
    SkipsMove(s, a) || PullsAway(s, a)
  }

  /** Only a guard that found the lock-free mode migrates back. */
  ghost predicate LeavingOk(s: Shared) {
    forall id :: id in s.calls && s.calls[id].Leaving? ==> s.calls[id].previous == LockFreeMode
  }

  lemma {:induction false} RunLeavingOk(ss: seq<Shared>, accesses: seq<Access>, i: nat)
    requires IsAccessRun(ss, accesses) && i <= |accesses|
    ensures LeavingOk(ss[i])
  {
    if i > 0 {
      RunLeavingOk(ss, accesses, i - 1);
      assert CanAccess(ss[i - 1], accesses[i - 1]) && ss[i] == AfterAccess(ss[i - 1], accesses[i - 1]);
    }
  }

  /** A race makes a guard inaccurate at once. */
  lemma RaceHurts(s: Shared, a: Access)
    requires CanAccess(s, a) && LeavingOk(s) && Races(s, a)
    ensures !Accurate(AfterAccess(s, a))
  {
    var s' := AfterAccess(s, a);
    if SkipsMove(s, a) {
      assert Holds(s', a.id);
    } else {
      var id :| Holds(s, id);
      assert Holds(s', id);
    }
  }

  /** Nothing else does. */
  lemma NoRaceIsSafe(s: Shared, a: Access)
    requires CanAccess(s, a) && Accurate(s) && !Races(s, a)
    ensures Accurate(AfterAccess(s, a))
  {
    var s' := AfterAccess(s, a);
    if AnyHeld(s') && s'.mode == LockFreeMode {
      var id :| Holds(s', id);
      if Holds(s, id) {
        assert AnyHeld(s);
      }
    }
  }

  /**
    However guard calls and switches interleave: every guard is accurate as long as it is held
    exactly when none is constructed without migrating in lock-free mode, and nothing leaves the
    mutex mode while one is held.
   */
  lemma {:induction false} AccurateIff(ss: seq<Shared>, accesses: seq<Access>, n: nat)
    requires IsAccessRun(ss, accesses) && n <= |accesses|
    ensures (forall i :: 0 <= i <= n ==> Accurate(ss[i])) <==> (forall k :: 0 <= k < n ==> !Races(ss[k], accesses[k]))
  {
    hide Accurate, Races, AfterAccess, CanAccess;
    if n == 0 {
      NobodyHeld(ss[0]);
    } else {
      var k := n - 1;
      AccurateIff(ss, accesses, k);
      RunLeavingOk(ss, accesses, k);
      assert CanAccess(ss[k], accesses[k]) && ss[k + 1] == AfterAccess(ss[k], accesses[k]);
      if Races(ss[k], accesses[k]) {
        RaceHurts(ss[k], accesses[k]);
      } else if Accurate(ss[k]) {
        NoRaceIsSafe(ss[k], accesses[k]);
      }
    }
  }

  lemma NobodyHeld(s: Shared)
    requires s.calls == map[]
    ensures Accurate(s)
  {
  }

  /** A guard taken between another's last count and its migration keeps a lock-free queue, with no call in progress. */
  lemma RaceDefeatsGuard() returns (ss: seq<Shared>, accesses: seq<Access>)
    ensures IsAccessRun(ss, accesses) && forall i :: 0 <= i < |accesses| ==> !accesses[i].SwitchTo?
    ensures ss[|accesses|] == Shared(LockFreeMode, 1, map[2 := Guarding(MutexMode)])
  {
    accesses := [ReadMode(1), CountUp(1), MoveIn(1), CountDown(1), ReadMode(2), CountUp(2), MoveOut(1)];
    var s0 := Shared(LockFreeMode, 0, map[]);
    var s1 := AfterAccess(s0, ReadMode(1));
    var s2 := AfterAccess(s1, CountUp(1));
    var s3 := AfterAccess(s2, MoveIn(1));
    var s4 := AfterAccess(s3, CountDown(1));
    var s5 := AfterAccess(s4, ReadMode(2));
    var s6 := AfterAccess(s5, CountUp(2));
    var s7 := AfterAccess(s6, MoveOut(1));
    ss := [s0, s1, s2, s3, s4, s5, s6, s7];
  }

  // ---------------------------------------------------------------- calls that do not overlap

  predicate Midway(c: GuardCall) {
    !c.Guarding?
  }

  predicate By(a: Access, id: GuardId) {
    !a.SwitchTo? && a.id == id
  }

  /** Nobody but a call that is midway makes an access. */
  ghost predicate Alone(s: Shared, a: Access) {
    forall id :: id in s.calls && Midway(s.calls[id]) ==> By(a, id)
  }

  ghost predicate IsSerial(ss: seq<Shared>, accesses: seq<Access>) {
    IsAccessRun(ss, accesses) && forall i :: 0 <= i < |accesses| ==> Alone(ss[i], accesses[i])
  }

  predicate Counted(c: GuardCall) {
    c.Moving? || c.Guarding?
  }

  /** The guards that count, with the modes they found. */
  function Held(s: Shared): map<GuardId, Mode> {
    map id | id in s.calls && Counted(s.calls[id]) :: s.calls[id].previous
  }

  /** The mode once the call that is midway, if any, has made its migration. */
  ghost function Settled(s: Shared): Mode {
    if exists id :: id in s.calls && s.calls[id].Moving? then MutexMode
    else if exists id :: id in s.calls && s.calls[id].Leaving? then LockFreeMode
    else s.mode
  }

  /** What the accesses so far amount to. */
  ghost function Abstract(s: Shared): Guards {
    Guards(Settled(s), Held(s))
  }

  /** The event an access completes, if it is the one at which a call takes effect. */
  function EventOf(a: Access): Option<GuardEvent> {
    match a
    case CountUp(id) => Some(Acquire(id))
    case CountDown(id) => Some(Release(id))
    case SwitchTo(m) => Some(Switch(m))
    case _ => None
  }

  /** At most one call is midway, and it still sees what it found. */
  ghost predicate SerialOk(s: Shared) {
    && (forall a, b :: a in s.calls && b in s.calls && Midway(s.calls[a]) && Midway(s.calls[b]) ==> a == b)
    && (forall id :: id in s.calls && s.calls[id].Found? ==> s.calls[id].previous == s.mode)
    && (forall id :: id in s.calls && s.calls[id].Leaving? ==> s.count == 0)
    && LeavingOk(s) && s.count == |Held(s)|
  }

  /** The abstract step of an access: none, or the event it completes. */
  ghost predicate Follows(s: Shared, a: Access, s': Shared) {
    match EventOf(a)
    case None => Abstract(s') == Abstract(s)
    case Some(e) => EventOk(Abstract(s), e) && Abstract(s') == AfterEvent(Abstract(s), e)
  }

  ghost predicate NoneMidway(s: Shared) {
    forall id :: id in s.calls ==> s.calls[id].Guarding?
  }

  lemma SettledCalm(s: Shared)
    requires NoneMidway(s)
    ensures Settled(s) == s.mode
  {
  }

  lemma ReadFollows(s: Shared, id: GuardId)
    requires SerialOk(s) && CanAccess(s, ReadMode(id)) && Alone(s, ReadMode(id))
    ensures var s' := AfterAccess(s, ReadMode(id)); SerialOk(s') && Follows(s, ReadMode(id), s')
  {
    var s' := AfterAccess(s, ReadMode(id));
    assert NoneMidway(s);
    assert Held(s') == Held(s);
    hide Held;
    SettledCalm(s);
    assert Settled(s') == s'.mode;
  }

  lemma CountUpFollows(s: Shared, id: GuardId)
    requires SerialOk(s) && CanAccess(s, CountUp(id)) && Alone(s, CountUp(id))
    ensures var s' := AfterAccess(s, CountUp(id)); SerialOk(s') && Follows(s, CountUp(id), s')
  {
    var s' := AfterAccess(s, CountUp(id));
    assert Settled(s) == s.mode;
    assert Held(s') == Held(s)[id := s.calls[id].previous];
    if s'.calls[id].Guarding? {
      assert NoneMidway(s');
      SettledCalm(s');
    }
  }

  lemma MoveInFollows(s: Shared, id: GuardId)
    requires SerialOk(s) && CanAccess(s, MoveIn(id)) && Alone(s, MoveIn(id))
    ensures var s' := AfterAccess(s, MoveIn(id)); SerialOk(s') && Follows(s, MoveIn(id), s')
  {
    var s' := AfterAccess(s, MoveIn(id));
    assert NoneMidway(s');
    assert Held(s') == Held(s);
  }

  lemma CountDownHeld(s: Shared, id: GuardId)
    requires CanAccess(s, CountDown(id))
    ensures id in Held(s) && Held(AfterAccess(s, CountDown(id))) == Held(s) - {id}
  {
  }

  lemma CountDownOk(s: Shared, id: GuardId)
    requires SerialOk(s) && CanAccess(s, CountDown(id)) && NoneMidway(s)
    ensures SerialOk(AfterAccess(s, CountDown(id)))
  {
    CountDownHeld(s, id);
    OneLess(Held(s), id);
    hide Held;
  }

  lemma CountDownFollows(s: Shared, id: GuardId)
    requires SerialOk(s) && CanAccess(s, CountDown(id)) && Alone(s, CountDown(id))
    ensures var s' := AfterAccess(s, CountDown(id)); SerialOk(s') && Follows(s, CountDown(id), s')
  {
    var s' := AfterAccess(s, CountDown(id));
    assert NoneMidway(s);
    CountDownOk(s, id);
    CountDownHeld(s, id);
    SettledCalm(s);
    assert s.count == |Held(s)| && s.calls[id].previous == Held(s)[id];
    hide Held, SerialOk;
    if id in s'.calls {
      assert s'.calls[id].Leaving? && forall k :: k in s'.calls ==> !s'.calls[k].Moving?;
    } else {
      assert NoneMidway(s');
      SettledCalm(s');
    }
  }

  lemma MoveOutFollows(s: Shared, id: GuardId)
    requires SerialOk(s) && CanAccess(s, MoveOut(id)) && Alone(s, MoveOut(id))
    ensures var s' := AfterAccess(s, MoveOut(id)); SerialOk(s') && Follows(s, MoveOut(id), s')
  {
    var s' := AfterAccess(s, MoveOut(id));
    assert NoneMidway(s');
    assert Held(s') == Held(s);
  }

  lemma SwitchFollows(s: Shared, m: Mode)
    requires SerialOk(s) && Alone(s, SwitchTo(m))
    ensures var s' := AfterAccess(s, SwitchTo(m)); SerialOk(s') && Follows(s, SwitchTo(m), s')
  {
    var s' := AfterAccess(s, SwitchTo(m));
    assert NoneMidway(s);
    SettledCalm(s);
    SettledCalm(s');
    assert Held(s') == Held(s);
  }

  lemma SerialStep(s: Shared, a: Access)
    requires SerialOk(s) && CanAccess(s, a) && Alone(s, a)
    ensures SerialOk(AfterAccess(s, a)) && Follows(s, a, AfterAccess(s, a))
  {
    hide SerialOk, Alone, Follows, AfterAccess;
    match a
    case ReadMode(id) => ReadFollows(s, id);
    case CountUp(id) => CountUpFollows(s, id);
    case MoveIn(id) => MoveInFollows(s, id);
    case CountDown(id) => CountDownFollows(s, id);
    case MoveOut(id) => MoveOutFollows(s, id);
    case SwitchTo(m) => SwitchFollows(s, m);
  }

  /** Calls that do not overlap are the events of `AdaptiveGuards`: every access is one of them or changes nothing. */
  lemma {:induction false} SerialRefines(ss: seq<Shared>, accesses: seq<Access>, i: nat)
    requires IsSerial(ss, accesses) && i <= |accesses|
    ensures SerialOk(ss[i]) && Abstract(ss[0]) == Guards(ss[0].mode, map[])
    ensures forall k :: 0 <= k < i ==> Follows(ss[k], accesses[k], ss[k + 1])
  {
    hide Alone, Follows, AfterAccess, CanAccess, SerialOk;
    if i == 0 {
      SerialStart(ss[0]);
    } else {
      var k := i - 1;
      SerialRefines(ss, accesses, k);
      assert CanAccess(ss[k], accesses[k]) && ss[k + 1] == AfterAccess(ss[k], accesses[k]) && Alone(ss[k], accesses[k]);
      SerialStep(ss[k], accesses[k]);
    }
  }

  lemma SerialStart(s: Shared)
    requires s.count == 0 && s.calls == map[]
    ensures SerialOk(s) && Abstract(s) == Guards(s.mode, map[])
  {
    assert Held(s) == map[];
  }

  // ---------------------------------------------------------------- the events of a serial run

  /** The events of the first `i` accesses. */
  ghost function Events(accesses: seq<Access>, i: nat): seq<GuardEvent>
    requires i <= |accesses|
  {
    if i == 0 then []
    else
      var es := Events(accesses, i - 1);
      match EventOf(accesses[i - 1]) case None => es case Some(e) => es + [e]
  }

  /** The abstract states between them. */
  ghost function Story(ss: seq<Shared>, accesses: seq<Access>, i: nat): seq<Guards>
    requires i <= |accesses| < |ss|
  {
    if i == 0 then [Abstract(ss[0])]
    else
      var gs := Story(ss, accesses, i - 1);
      match EventOf(accesses[i - 1]) case None => gs case Some(e) => gs + [Abstract(ss[i])]
  }

  /** So all that is proved of events holds of calls that do not overlap. */
  lemma {:induction false} SerialIsReplay(ss: seq<Shared>, accesses: seq<Access>, i: nat)
    requires IsSerial(ss, accesses) && i <= |accesses|
    ensures var gs, es := Story(ss, accesses, i), Events(accesses, i);
            IsReplay(gs, es) && gs[0] == Guards(ss[0].mode, map[]) && gs[|es|] == Abstract(ss[i])
  {
    hide Follows, Abstract, AfterEvent, EventOk, SerialOk, Alone, AfterAccess, CanAccess;
    SerialRefines(ss, accesses, i);
    if i > 0 {
      var k := i - 1;
      SerialIsReplay(ss, accesses, k);
      assert Follows(ss[k], accesses[k], ss[k + 1]);
      FollowsMeans(ss[k], accesses[k], ss[k + 1]);
      var gs, es := Story(ss, accesses, k), Events(accesses, k);
      if EventOf(accesses[k]).Some? {
        ReplayExtends(gs, es, EventOf(accesses[k]).value);
      }
    }
  }

  lemma FollowsMeans(s: Shared, a: Access, s': Shared)
    requires Follows(s, a, s')
    ensures EventOf(a).None? ==> Abstract(s') == Abstract(s)
    ensures EventOf(a).Some? ==>
              EventOk(Abstract(s), EventOf(a).value) && Abstract(s') == AfterEvent(Abstract(s), EventOf(a).value)
  {
  }

  lemma ReplayExtends(gs: seq<Guards>, es: seq<GuardEvent>, e: GuardEvent)
    requires IsReplay(gs, es) && EventOk(gs[|es|], e)
    ensures IsReplay(gs + [AfterEvent(gs[|es|], e)], es + [e])
  {
    hide EventOk, AfterEvent;
    var gs', es' := gs + [AfterEvent(gs[|es|], e)], es + [e];
    forall i | 0 <= i < |es'|
      ensures EventOk(gs'[i], es'[i]) && gs'[i + 1] == AfterEvent(gs'[i], es'[i])
    {
      if i < |es| {
        assert EventOk(gs[i], es[i]) && gs[i + 1] == AfterEvent(gs[i], es[i]);
      }
    }
  }

  // ---------------------------------------------------------------- guards of a serial run

  lemma CountedMeansHeld(s: Shared, id: GuardId)
    requires SerialOk(s) && CanAccess(s, CountUp(id)) && Alone(s, CountUp(id)) && s.count != 0
    ensures AnyHeld(s)
  {
    var k :| k in Held(s);
    assert k != id && s.calls[k].Guarding?;
    assert Holds(s, k);
  }

  lemma SerialRaces(s: Shared, a: Access)
    requires SerialOk(s) && CanAccess(s, a) && Alone(s, a) && Accurate(s)
    ensures Races(s, a) <==> AnyHeld(s) && a == SwitchTo(LockFreeMode)
  {
    if a.CountUp? && s.count != 0 {
      CountedMeansHeld(s, a.id);
    }
    if a.MoveOut? && AnyHeld(s) {
      var id :| Holds(s, id);
      HeldCounts(s, id);
    }
  }

  lemma HeldCounts(s: Shared, id: GuardId)
    requires Holds(s, id)
    ensures |Held(s)| > 0
  {
    assert id in Held(s);
  }

  /** Calls that do not overlap have no races of their own: only a switch under a guard defeats it. */
  lemma {:induction false} SerialAccurateIff(ss: seq<Shared>, accesses: seq<Access>, n: nat)
    requires IsSerial(ss, accesses) && n <= |accesses|
    ensures (forall i :: 0 <= i <= n ==> Accurate(ss[i]))
            <==> (forall k :: 0 <= k < n ==> !(AnyHeld(ss[k]) && accesses[k] == SwitchTo(LockFreeMode)))
  {
    hide Accurate, Races, Alone, SerialOk, AnyHeld, CanAccess, AfterAccess;
    if n == 0 {
      NobodyHeld(ss[0]);
    } else {
      var k := n - 1;
      SerialAccurateIff(ss, accesses, k);
      AccurateIff(ss, accesses, k);
      AccurateIff(ss, accesses, n);
      SerialRefines(ss, accesses, k);
      assert CanAccess(ss[k], accesses[k]) && Alone(ss[k], accesses[k]);
      if Accurate(ss[k]) {
        SerialRaces(ss[k], accesses[k]);
      }
    }
  }
}
