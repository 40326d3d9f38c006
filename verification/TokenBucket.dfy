/**
  The token bucket under interleaving: every load, compare-and-swap and clock reading of
  `refill` and `try_acquire` is one step.  Tokens are scaled by `PRECISION_FACTOR`, the rate
  is in scaled tokens per nanosecond, and arithmetic is exact.
 */
module TokenBucket {
  import opened MapSums

  type Thread = nat

  const PRECISION_FACTOR: nat := 1000

  datatype Config = Config(rate: real, max: nat)

  /** Where a call of `try_acquire` is; `need` is the scaled request. */
  datatype Pc =
    | ReadLast(need: nat, now: int)                         // has read the clock
    | SwapLast(need: nat, now: int, last: int)              // has read last_refill_
    | ReadTokens(need: nat, gain: nat)                     // owns the interval, has tokens to add
    | SwapTokens(need: nat, gain: nat, current: int)       // has read tokens_
    | ReadStock(need: nat)                                  // refill is over
    | SwapStock(need: nat, current: int)                    // has read tokens_ for the request

  /** A refilled stretch of time. */
  datatype Interval = Interval(from: int, to: int)

  /** `granted` and `intervals` record the history. */
  datatype State = State(tokens: int, last: int, clock: int, calls: map<Thread, Pc>,
                         granted: nat, intervals: seq<Interval>)

  datatype Action =
    | Tick(d: nat)
    | Begin(t: Thread, n: nat)         // try_acquire(n): refill reads the clock
    | Step(t: Thread, lucky: bool)     // the next access; a weak compare-and-swap may fail unluckily

  function Start(c: Config, now: int): State {
    State(c.max, now, now, map[], 0, [])
  }

  predicate Enabled(s: State, a: Action) {
    match a
    case Tick(d) => true
    case Begin(t, n) => t !in s.calls
    case Step(t, lucky) => t in s.calls
  }

  /** The scaled tokens that `elapsed` nanoseconds are worth. */
  function Gain(c: Config, elapsed: int): int {
    (elapsed as real * c.rate).Floor
  }

  function Min(a: int, b: int): int {
    if a < b then a else b
  }

  function SwapLastStep(c: Config, s: State, t: Thread, p: Pc, lucky: bool): State
    requires p.SwapLast?
  {
    if p.now - p.last <= 0 || !(lucky && s.last == p.last) then s.(calls := s.calls[t := ReadStock(p.need)])
    else
      var gain := Gain(c, p.now - p.last);
      s.(last := p.now, intervals := s.intervals + [Interval(p.last, p.now)],
         calls := s.calls[t := if gain <= 0 then ReadStock(p.need) else ReadTokens(p.need, gain)])
  }

  function SwapTokensStep(c: Config, s: State, t: Thread, p: Pc, lucky: bool): State
    requires p.SwapTokens?
  {
    var s' := s.(calls := s.calls[t := ReadStock(p.need)]);
    if lucky && s.tokens == p.current then s'.(tokens := Min(p.current + p.gain, c.max)) else s'
  }

  function SwapStockStep(s: State, t: Thread, p: Pc, lucky: bool): State
    requires p.SwapStock?
  {
    if p.current < p.need then s.(calls := s.calls - {t})
    else if lucky && s.tokens == p.current then
      s.(calls := s.calls - {t}, tokens := p.current - p.need, granted := s.granted + p.need)
    else s.(calls := s.calls[t := SwapStock(p.need, s.tokens)])
  }

  function StepOf(c: Config, s: State, t: Thread, lucky: bool): State
    requires t in s.calls
  {
    match s.calls[t]
    case ReadLast(need, now) => s.(calls := s.calls[t := SwapLast(need, now, s.last)])
    case SwapLast(need, now, last) => SwapLastStep(c, s, t, s.calls[t], lucky)
    case ReadTokens(need, gain) => s.(calls := s.calls[t := SwapTokens(need, gain, s.tokens)])
    case SwapTokens(need, gain, current) => SwapTokensStep(c, s, t, s.calls[t], lucky)
    case ReadStock(need) => s.(calls := s.calls[t := SwapStock(need, s.tokens)])
    case SwapStock(need, current) => SwapStockStep(s, t, s.calls[t], lucky)
  }

  function After(c: Config, s: State, a: Action): State
    requires Enabled(s, a)
  {
    match a
    case Tick(d) => s.(clock := s.clock + d)
    case Begin(t, n) => s.(calls := s.calls[t := ReadLast(n * PRECISION_FACTOR, s.clock)])
    case Step(t, lucky) => StepOf(c, s, t, lucky)
  }

  ghost predicate IsRun(c: Config, states: seq<State>, actions: seq<Action>) {
    && |states| == |actions| + 1 && states[0] == Start(c, states[0].clock)
    && forall i :: 0 <= i < |actions| ==>
         Enabled(states[i], actions[i]) && states[i + 1] == After(c, states[i], actions[i])
  }

  // ---------------------------------------------------------------- bounds of the stock

  predicate CallOk(p: Pc, clock: int) {
    && (p.ReadLast? || p.SwapLast? ==> p.now <= clock)
    && (p.SwapTokens? ==> p.current >= 0)
  }

  /** The refilled stretches follow each other without a gap, from the start to `last`. */
  ghost predicate Tiling(intervals: seq<Interval>, start: int, last: int) {
    && (forall i :: 0 <= i < |intervals| ==> intervals[i].from < intervals[i].to)
    && (forall i, j :: 0 <= i < j < |intervals| ==> intervals[i].to <= intervals[j].from)
    && (if intervals == [] then last == start
        else intervals[0].from == start && intervals[|intervals| - 1].to == last)
    && forall i, j :: 0 <= i && j == i + 1 && j < |intervals| ==> intervals[i].to == intervals[j].from
  }

  ghost predicate Inv(c: Config, start: int, s: State) {
    && 0 <= s.tokens <= c.max && s.last <= s.clock
    && Tiling(s.intervals, start, s.last)
    && forall t :: t in s.calls ==> CallOk(s.calls[t], s.clock)
  }

  lemma TilingGrows(intervals: seq<Interval>, start: int, last: int, now: int)
    requires Tiling(intervals, start, last) && last < now
    ensures Tiling(intervals + [Interval(last, now)], start, now)
  {
    var more := intervals + [Interval(last, now)];
    var n := |intervals|;
    forall i, j | 0 <= i < j < |more|
      ensures more[i].to <= more[j].from
    {
      if j == n && i < n - 1 {
        assert intervals[i].to <= intervals[n - 1].from;
      }
    }
  }

  lemma StepInv(c: Config, start: int, s: State, a: Action)
    requires Inv(c, start, s) && Enabled(s, a)
    ensures Inv(c, start, After(c, s, a))
  {
    hide Tiling, Gain;
    if a.Step? {
      var p := s.calls[a.t];
      assert CallOk(p, s.clock);
      if p.SwapLast? && p.now - p.last > 0 && a.lucky && s.last == p.last {
        TilingGrows(s.intervals, start, s.last, p.now);
      }
    }
  }

  /** The stock stays between empty and full, and refilled stretches never overlap. */
  lemma {:induction false} RunInv(c: Config, states: seq<State>, actions: seq<Action>, i: nat)
    requires IsRun(c, states, actions) && i <= |actions|
    ensures Inv(c, states[0].clock, states[i])
  {
    hide After;
    if i > 0 {
      RunInv(c, states, actions, i - 1);
      StepInv(c, states[0].clock, states[i - 1], actions[i - 1]);
    }
  }

  // ---------------------------------------------------------------- the rate bound

  /** Tokens a call owns and has not put into the stock. */
  function Owed(p: Pc): nat {
    if p.ReadTokens? || p.SwapTokens? then p.gain else 0
  }

  ghost function Debts(calls: map<Thread, Pc>): map<Thread, nat> {
    map t | t in calls :: Owed(calls[t])
  }

  ghost function Debt(calls: map<Thread, Pc>): nat {
    Sum(Debts(calls))
  }

  lemma DebtUpdate(calls: map<Thread, Pc>, t: Thread, p: Pc)
    ensures Debt(calls[t := p]) + (if t in calls then Owed(calls[t]) else 0) == Debt(calls) + Owed(p)
  {
    assert Debts(calls[t := p]) == Debts(calls)[t := Owed(p)];
    SumUpdate(Debts(calls), t, Owed(p));
  }

  lemma DebtRemove(calls: map<Thread, Pc>, t: Thread)
    requires t in calls
    ensures Debt(calls) == Owed(calls[t]) + Debt(calls - {t})
  {
    assert Debts(calls - {t}) == Debts(calls) - {t};
    SumRemove(Debts(calls), t);
  }

  /** Everything handed out, in stock or owed. */
  ghost function Total(s: State): int {
    s.granted + s.tokens + Debt(s.calls)
  }

  /** What a step may add: nothing, or what the stretch of time it claims is worth. */
  ghost predicate Paid(c: Config, s: State, s': State) {
    && Total(s') <= Total(s)
                    + (if s'.last > s.last && Gain(c, s'.last - s.last) > 0 then Gain(c, s'.last - s.last) else 0)
    && s'.last >= s.last
  }

  lemma SwapLastPaid(c: Config, s: State, t: Thread, lucky: bool)
    requires t in s.calls && s.calls[t].SwapLast?
    ensures Paid(c, s, SwapLastStep(c, s, t, s.calls[t], lucky))
  {
    hide Debt, Gain;
    var p := s.calls[t];
    var s' := SwapLastStep(c, s, t, p, lucky);
    DebtUpdate(s.calls, t, s'.calls[t]);
    assert s'.calls == s.calls[t := s'.calls[t]];
  }

  lemma SwapTokensPaid(c: Config, s: State, t: Thread, lucky: bool)
    requires t in s.calls && s.calls[t].SwapTokens?
    ensures Paid(c, s, SwapTokensStep(c, s, t, s.calls[t], lucky))
  {
    hide Debt, Gain;
    DebtUpdate(s.calls, t, ReadStock(s.calls[t].need));
  }

  lemma SwapStockPaid(c: Config, s: State, t: Thread, lucky: bool)
    requires t in s.calls && s.calls[t].SwapStock?
    ensures Paid(c, s, SwapStockStep(s, t, s.calls[t], lucky))
  {
    hide Debt, Gain;
    DebtRemove(s.calls, t);
    DebtUpdate(s.calls, t, SwapStock(s.calls[t].need, s.tokens));
  }

  lemma StepPaid(c: Config, s: State, a: Action)
    requires Enabled(s, a)
    ensures Paid(c, s, After(c, s, a))
  {
    hide Debt, Gain, SwapLastStep, SwapTokensStep, SwapStockStep;
    match a
    case Tick(d) =>
    case Begin(t, n) => DebtUpdate(s.calls, t, ReadLast(n * PRECISION_FACTOR, s.clock));
    case Step(t, lucky) =>
      match s.calls[t]
      case ReadLast(need, now) => DebtUpdate(s.calls, t, SwapLast(need, now, s.last));
      case SwapLast(need, now, last) => SwapLastPaid(c, s, t, lucky);
      case ReadTokens(need, gain) => DebtUpdate(s.calls, t, SwapTokens(need, gain, s.tokens));
      case SwapTokens(need, gain, current) => SwapTokensPaid(c, s, t, lucky);
      case ReadStock(need) => DebtUpdate(s.calls, t, SwapStock(need, s.tokens));
      case SwapStock(need, current) => SwapStockPaid(c, s, t, lucky);
  }

  /** Time spent, in scaled tokens. */
  ghost function Worth(c: Config, from: int, to: int): real {
    (to - from) as real * c.rate
  }

  lemma WorthSums(c: Config, a: int, b: int, d: int)
    ensures Worth(c, a, b) + Worth(c, b, d) == Worth(c, a, d)
  {
    assert ((b - a) as real + (d - b) as real) == (d - a) as real;
  }

  lemma PaidWorth(c: Config, s: State, s': State)
    requires c.rate >= 0.0 && Paid(c, s, s')
    ensures Total(s') as real <= Total(s) as real + Worth(c, s.last, s'.last)
  {
    hide Total;
    var e := s'.last - s.last;
    assert Worth(c, s.last, s'.last) == e as real * c.rate;
    assert e as real * c.rate >= 0.0;
  }

  /** Over any stretch of a run the total grows no faster than time. */
  lemma {:induction false} TotalBound(c: Config, states: seq<State>, actions: seq<Action>, i: nat, j: nat)
    requires c.rate >= 0.0 && IsRun(c, states, actions) && i <= j <= |actions|
    ensures Total(states[j]) as real <= Total(states[i]) as real + Worth(c, states[i].last, states[j].last)
    decreases j
  {
    hide After, Total, Worth, Paid;
    if i < j {
      TotalBound(c, states, actions, i, j - 1);
      StepPaid(c, states[j - 1], actions[j - 1]);
      PaidWorth(c, states[j - 1], states[j]);
      WorthSums(c, states[i].last, states[j - 1].last, states[j].last);
    } else {
      NoWorth(c, states[i].last);
    }
  }

  lemma NoWorth(c: Config, a: int)
    ensures Worth(c, a, a) == 0.0
  {
  }

  lemma WorthGrows(c: Config, a: int, b: int, d: int)
    requires c.rate >= 0.0 && b <= d
    ensures Worth(c, a, b) <= Worth(c, a, d)
  {
    WorthSums(c, a, b, d);
    assert (d - b) as real * c.rate >= 0.0;
  }

  /** Tokens granted by any moment are at most the burst plus the rate times the time since the start. */
  lemma GrantBound(c: Config, states: seq<State>, actions: seq<Action>, n: nat)
    requires c.rate >= 0.0 && IsRun(c, states, actions) && n <= |actions|
    ensures states[n].granted as real <= c.max as real + Worth(c, states[0].clock, states[n].clock)
  {
    hide Worth;
    TotalBound(c, states, actions, 0, n);
    RunInv(c, states, actions, n);
    StartTotal(c, states[0].clock);
    WorthGrows(c, states[0].clock, states[n].last, states[n].clock);
    assert states[n].granted <= Total(states[n]);
  }

  lemma StartTotal(c: Config, now: int)
    ensures Total(Start(c, now)) == c.max
  {
    assert Debts(map[]) == map[];
  }

  /**
    In any window of a run the grants are at most a full bucket, what calls had already
    claimed when it began, and the rate times the time refilled in it.
   */
  lemma WindowBound(c: Config, states: seq<State>, actions: seq<Action>, i: nat, j: nat)
    requires c.rate >= 0.0 && IsRun(c, states, actions) && i <= j <= |actions|
    ensures (states[j].granted - states[i].granted) as real
            <= (c.max + Debt(states[i].calls)) as real + Worth(c, states[i].last, states[j].last)
  {
    hide Worth, Debt;
    TotalBound(c, states, actions, i, j);
    RunInv(c, states, actions, i);
    RunInv(c, states, actions, j);
  }

  // ---------------------------------------------------------------- answers

  /** Step `b` began the call `try_acquire(n)` that `t` has been in since. */
  ghost predicate Asking(states: seq<State>, actions: seq<Action>, b: nat, i: nat, t: Thread, n: nat)
    requires b < i <= |actions| < |states|
  {
    actions[b] == Begin(t, n) && forall m :: b < m <= i ==> t in states[m].calls
  }

  /** The stock was `current` in a state of that call. */
  ghost predicate SawStock(states: seq<State>, b: nat, i: nat, current: int)
    requires i < |states|
  {
    exists k :: b < k <= i && states[k].tokens == current
  }

  /** What a call knows: the scaled request, and the stock as it once was. */
  ghost predicate Knows(states: seq<State>, b: nat, i: nat, p: Pc, n: nat)
    requires i < |states|
  {
    p.need == n * 1000 && (p.SwapStock? ==> SawStock(states, b, i, p.current))
  }

  lemma AskingStep(c: Config, s: State, a: Action, t: Thread)
    requires Enabled(s, a) && t in s.calls && t in After(c, s, a).calls
    ensures var p, p' := s.calls[t], After(c, s, a).calls[t];
            p'.need == p.need && (p'.SwapStock? ==> p' == p || p'.current == s.tokens)
  {
    hide Gain;
  }

  lemma {:induction false} CallKnows(c: Config, states: seq<State>, actions: seq<Action>,
                                     b: nat, i: nat, t: Thread, n: nat)
    requires IsRun(c, states, actions) && b < i <= |actions| && Asking(states, actions, b, i, t, n)
    ensures Knows(states, b, i, states[i].calls[t], n)
    decreases i
  {
    hide After;
    if i == b + 1 {
      BeginKnows(c, states[b], t, n);
    } else {
      CallKnows(c, states, actions, b, i - 1, t, n);
      assert t in states[i - 1].calls && t in states[i].calls;
      AskingStep(c, states[i - 1], actions[i - 1], t);
      var p, p' := states[i - 1].calls[t], states[i].calls[t];
      if p'.SwapStock? && p' == p {
        var k :| b < k <= i - 1 && states[k].tokens == p.current;
        assert SawStock(states, b, i, p'.current);
      } else if p'.SwapStock? {
        assert states[i - 1].tokens == p'.current;
      }
    }
  }

  lemma BeginKnows(c: Config, s: State, t: Thread, n: nat)
    requires Enabled(s, Begin(t, n))
    ensures var s' := After(c, s, Begin(t, n));
            t in s'.calls && s'.calls[t].ReadLast? && s'.calls[t].need == n * 1000
  {
  }

  /** A call ends by taking what it asked for, or because the stock was below it at some moment of the call. */
  lemma AnsweredAcquire(c: Config, states: seq<State>, actions: seq<Action>, b: nat, i: nat, t: Thread, n: nat)
    requires IsRun(c, states, actions) && b < i < |actions| && Asking(states, actions, b, i, t, n)
    requires t !in states[i + 1].calls
    ensures var s, s', need := states[i], states[i + 1], n * 1000;
            || (s.tokens >= need && s'.tokens == s.tokens - need && s'.granted == s.granted + need)
            || (s'.tokens == s.tokens && s'.granted == s.granted && exists k :: b < k <= i && states[k].tokens < need)
  {
    hide Gain;
    CallKnows(c, states, actions, b, i, t, n);
    var p := states[i].calls[t];
    assert p.SwapStock?;
    var k :| b < k <= i && states[k].tokens == p.current;
  }

  // ---------------------------------------------------------------- a call on its own

  /** What `try_acquire` is for, without interference: refill up to the cap, then take if there is enough. */
  function Refilled(c: Config, s: State): int {
    if s.clock <= s.last || Gain(c, s.clock - s.last) <= 0 then s.tokens
    else Min(s.tokens + Gain(c, s.clock - s.last), c.max)
  }

  function Alone(c: Config, s: State, t: Thread, steps: nat): State
    decreases steps
  {
    if steps == 0 || t !in s.calls then s else Alone(c, StepOf(c, s, t, true), t, steps - 1)
  }

  /** Time is worth its rate, rounded down to whole scaled tokens. */
  lemma GainIs(c: Config, elapsed: int)
    ensures Gain(c, elapsed) as real <= elapsed as real * c.rate < Gain(c, elapsed) as real + 1.0
    ensures Gain(c, elapsed) >= 1 <==> elapsed as real * c.rate >= 1.0
  {
  }

  /** A lone caller's refill brings the stock to the maximum, or adds what the time is worth to within one. */
  lemma RefilledIs(c: Config, s: State)
    requires s.tokens <= c.max && c.rate >= 0.0
    ensures var worth := (s.clock - s.last) as real * c.rate;
            && (s.clock <= s.last ==> Refilled(c, s) == s.tokens)
            && (s.clock > s.last && s.tokens as real + worth >= c.max as real ==> Refilled(c, s) == c.max)
            && (s.clock > s.last && Refilled(c, s) < c.max ==>
                  s.tokens as real + worth - 1.0 < Refilled(c, s) as real <= s.tokens as real + worth)
            && (Refilled(c, s) as real <= s.tokens as real + worth || s.clock <= s.last)
            && s.tokens <= Refilled(c, s) <= c.max
  {
    GainIs(c, s.clock - s.last);
    if s.clock > s.last {
      WorthSign(c.rate, s.clock - s.last);
    }
    hide Gain;
  }

  lemma WorthSign(rate: real, elapsed: int)
    requires rate >= 0.0 && elapsed >= 0
    ensures elapsed as real * rate >= 0.0
  {
  }

  /** A call that runs alone grants exactly when the refilled stock is enough, and within seven steps. */
  lemma SoloAcquire(c: Config, s: State, t: Thread, n: nat)
    requires t !in s.calls
    ensures var s' := Alone(c, After(c, s, Begin(t, n)), t, 6);
            var need := n * 1000;
            && t !in s'.calls && s'.last == (if s.clock > s.last then s.clock else s.last)
            && (Refilled(c, s) >= need ==> s'.tokens == Refilled(c, s) - need && s'.granted == s.granted + need)
            && (Refilled(c, s) < need ==> s'.tokens == Refilled(c, s) && s'.granted == s.granted)
  {
    hide Gain;
    var need := n * PRECISION_FACTOR;
    var s1 := After(c, s, Begin(t, n));
    var s2 := StepOf(c, s1, t, true);
    var s3 := StepOf(c, s2, t, true);
    assert Alone(c, s1, t, 6) == Alone(c, s2, t, 5) == Alone(c, s3, t, 4);
    if s3.calls[t].ReadTokens? {
      var s4 := StepOf(c, s3, t, true);
      var s5 := StepOf(c, s4, t, true);
      assert Alone(c, s3, t, 4) == Alone(c, s4, t, 3) == Alone(c, s5, t, 2);
      TakeAlone(c, s5, t, need, 2);
    } else {
      TakeAlone(c, s3, t, need, 4);
    }
  }

  lemma TakeAlone(c: Config, s: State, t: Thread, need: nat, steps: nat)
    requires t in s.calls && s.calls[t] == ReadStock(need) && steps >= 2
    ensures var s' := Alone(c, s, t, steps);
            && t !in s'.calls && s'.last == s.last
            && (s.tokens >= need ==> s'.tokens == s.tokens - need && s'.granted == s.granted + need)
            && (s.tokens < need ==> s'.tokens == s.tokens && s'.granted == s.granted)
  {
    var s1 := StepOf(c, s, t, true);
    var s2 := StepOf(c, s1, t, true);
    assert Alone(c, s, t, steps) == Alone(c, s1, t, steps - 1) == Alone(c, s2, t, steps - 2);
  }
}
