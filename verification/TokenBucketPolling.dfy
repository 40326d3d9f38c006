/** A caller that polls the token bucket on its own: when it is served at all. */
module TokenBucketPolling {
  import opened TokenBucket

  lemma {:induction false} AloneClock(c: Config, s: State, t: Thread, steps: nat)
    ensures Alone(c, s, t, steps).clock == s.clock
    decreases steps
  {
    if steps > 0 && t in s.calls {
      StepClock(c, s, t);
      AloneClock(c, StepOf(c, s, t, true), t, steps - 1);
    }
  }

  lemma StepClock(c: Config, s: State, t: Thread)
    requires t in s.calls
    ensures StepOf(c, s, t, true).clock == s.clock
  {
  }

  /** Waits `d` nanoseconds and asks once more. */
  function Poll(c: Config, s: State, t: Thread, n: nat, d: nat): State {
    var s' := After(c, s, Tick(d));
    if t in s.calls then s' else Alone(c, After(c, s', Begin(t, n)), t, 6)
  }

  function Polls(c: Config, s: State, t: Thread, n: nat, d: nat, k: nat): State {
    if k == 0 then s else Poll(c, Polls(c, s, t, n, d, k - 1), t, n, d)
  }

  /** The poller is between two calls and has refilled up to now. */
  predicate Ready(s: State, t: Thread) {
    t !in s.calls && s.last == s.clock
  }

  lemma PollOnce(c: Config, s: State, t: Thread, n: nat, d: nat)
    requires Ready(s, t) && d > 0
    ensures var s', need := Poll(c, s, t, n, d), n * PRECISION_FACTOR;
            var stock := if Gain(c, d) >= 1 then Min(s.tokens + Gain(c, d), c.max) else s.tokens;
            && Ready(s', t)
            && (stock >= need ==> s'.tokens == stock - need && s'.granted == s.granted + need)
            && (stock < need ==> s'.tokens == stock && s'.granted == s.granted)
  {
    hide Gain, Alone;
    var s' := After(c, s, Tick(d));
    SoloAcquire(c, s', t, n);
    AloneClock(c, After(c, s', Begin(t, n)), t, 6);
  }

  /** Below one scaled token for each wait nothing is ever gained: the poll itself moves the refill time on. */
  lemma {:induction false} Starves(c: Config, s: State, t: Thread, n: nat, d: nat, k: nat)
    requires Ready(s, t) && d > 0 && s.tokens < n * PRECISION_FACTOR && d as real * c.rate < 1.0
    ensures var s' := Polls(c, s, t, n, d, k);
            Ready(s', t) && s'.tokens == s.tokens && s'.granted == s.granted
  {
    hide Gain, Poll;
    GainIs(c, d);
    if k > 0 {
      Starves(c, s, t, n, d, k - 1);
      PollOnce(c, Polls(c, s, t, n, d, k - 1), t, n, d);
    }
  }

  /** From one scaled token on each wait adds at least one, until the request is granted. */
  lemma {:induction false} Fills(c: Config, s: State, t: Thread, n: nat, d: nat, k: nat)
    requires Ready(s, t) && d > 0 && 0 <= s.tokens < n * PRECISION_FACTOR <= c.max && d as real * c.rate >= 1.0
    ensures var s', need := Polls(c, s, t, n, d, k), n * PRECISION_FACTOR;
            && Ready(s', t) && s'.granted >= s.granted
            && (s'.granted > s.granted || (s'.tokens < need && s'.tokens >= s.tokens + k))
  {
    hide Gain, Poll;
    GainIs(c, d);
    if k > 0 {
      Fills(c, s, t, n, d, k - 1);
      PollOnce(c, Polls(c, s, t, n, d, k - 1), t, n, d);
    }
  }

  /**
    A lone poller that asks for more than the stock holds, but not more than the bucket, is
    served sooner or later exactly when one wait is worth a scaled token.
   */
  lemma PollerServedIff(c: Config, s: State, t: Thread, n: nat, d: nat)
    requires Ready(s, t) && d > 0 && 0 <= s.tokens < n * PRECISION_FACTOR <= c.max
    ensures (exists k :: Polls(c, s, t, n, d, k).granted > s.granted) <==> d as real * c.rate >= 1.0
  {
    hide Gain, Polls;
    if d as real * c.rate >= 1.0 {
      var k := n * PRECISION_FACTOR - s.tokens;
      Fills(c, s, t, n, d, k);
      assert Polls(c, s, t, n, d, k).granted > s.granted;
    } else {
      forall k
        ensures Polls(c, s, t, n, d, k).granted == s.granted
      {
        Starves(c, s, t, n, d, k);
      }
    }
  }
}
