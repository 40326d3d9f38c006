/** The sliding-window counter: a ring of time buckets that stands for the log of all events. */
module SlidingWindow {

  const UINT64: nat := 0x1_0000_0000_0000_0000

  /** A window of whole seconds and a number of buckets per second. */
  datatype Config = Config(window: nat, bucketsPerSecond: nat)

  /** What the constructor needs: a bucket lasts at least a millisecond, and times fit the clock. */
  predicate ConfigOk(c: Config) {
    c.window > 0 && 0 < c.bucketsPerSecond <= 1000 && c.window * 1000 + 1000 < UINT64
  }

  datatype Bucket = Bucket(count: nat, stamp: nat)

  datatype Event = Event(time: nat, count: nat)

  function WindowMs(c: Config): nat {
    c.window * 1000
  }

  function Duration(c: Config): nat
    requires ConfigOk(c)
    ensures Duration(c) > 0
  {
    DivPositive(c.bucketsPerSecond);
    1000 / c.bucketsPerSecond
  }

  lemma DivPositive(b: nat)
    requires 0 < b <= 1000
    ensures 1000 / b > 0
  {
    assert 1000 == b * (1000 / b) + 1000 % b;
  }

  function Size(c: Config): nat
    requires ConfigOk(c)
    ensures Size(c) > 0
  {
    Positive(c.window, c.bucketsPerSecond);
    c.window * c.bucketsPerSecond
  }

  lemma Positive(a: nat, b: nat)
    requires a > 0 && b > 0
    ensures a * b > 0
  {
  }

  function Slot(c: Config, time: nat): nat
    requires ConfigOk(c)
  {
    time / Duration(c)
  }

  /** Where the bucket of a time starts. */
  function StartOf(c: Config, time: nat): nat
    requires ConfigOk(c)
  {
    Slot(c, time) * Duration(c)
  }

  function IndexFor(c: Config, time: nat): (i: nat)
    requires ConfigOk(c)
    ensures i < Size(c)
  {
    Slot(c, time) % Size(c)
  }

  /** The test on unsigned 64-bit times. */
  predicate BucketValid(c: Config, stamp: nat, now: nat) {
    stamp != 0 && (now - stamp) % UINT64 < WindowMs(c)
  }

  function Advanced(c: Config, b: Bucket, now: nat): Bucket
    requires ConfigOk(c)
  {
    if b.stamp < StartOf(c, now) then Bucket(0, StartOf(c, now)) else b
  }

  /** The ring after one event. */
  function Recorded(c: Config, ring: seq<Bucket>, e: Event): (r: seq<Bucket>)
    requires ConfigOk(c) && |ring| == Size(c)
    ensures |r| == Size(c)
  {
    var i := IndexFor(c, e.time);
    var b := Advanced(c, ring[i], e.time);
    ring[i := b.(count := b.count + e.count)]
  }

  function Share(c: Config, b: Bucket, now: nat): nat {
    if BucketValid(c, b.stamp, now) then b.count else 0
  }

  function RingTotal(c: Config, ring: seq<Bucket>, now: nat): nat {
    if ring == [] then 0 else RingTotal(c, ring[..|ring| - 1], now) + Share(c, ring[|ring| - 1], now)
  }

  function Empty(c: Config): seq<Bucket>
    requires ConfigOk(c)
  {
    seq(Size(c), i => Bucket(0, 0))
  }

  function Replay(c: Config, log: seq<Event>): (r: seq<Bucket>)
    requires ConfigOk(c)
    ensures |r| == Size(c)
  {
    if log == [] then Empty(c) else Recorded(c, Replay(c, log[..|log| - 1]), log[|log| - 1])
  }

  // ---------------------------------------------------------------- the reference: the whole log

  /** The event's bucket began after the clock's zero and less than the window ago. */
  predicate Recent(c: Config, e: Event, now: nat)
    requires ConfigOk(c)
  {
    StartOf(c, e.time) > 0 && now - StartOf(c, e.time) < WindowMs(c)
  }

  ghost function LogTotal(c: Config, log: seq<Event>, now: nat): nat
    requires ConfigOk(c)
  {
    if log == [] then 0
    else
      var e := log[|log| - 1];
      LogTotal(c, log[..|log| - 1], now) + if Recent(c, e, now) then e.count else 0
  }

  ghost function AllTime(log: seq<Event>): nat {
    if log == [] then 0 else AllTime(log[..|log| - 1]) + log[|log| - 1].count
  }

  /** Times never go back, and `now` is not before the last of them. */
  ghost predicate Timely(log: seq<Event>, now: nat) {
    && (forall i, j :: 0 <= i < j < |log| ==> log[i].time <= log[j].time)
    && (forall i :: 0 <= i < |log| ==> log[i].time <= now)
    && now < UINT64
  }

  // ---------------------------------------------------------------- the ring agrees with the log

  lemma {:induction false} TotalUpdate(c: Config, ring: seq<Bucket>, i: nat, b: Bucket, now: nat)
    requires i < |ring|
    ensures RingTotal(c, ring[i := b], now) + Share(c, ring[i], now) == RingTotal(c, ring, now) + Share(c, b, now)
  {
    var n := |ring| - 1;
    var ring' := ring[i := b];
    if i == n {
      assert ring'[..n] == ring[..n];
    } else {
      TotalUpdate(c, ring[..n], i, b, now);
      assert ring'[..n] == ring[..n][i := b];
    }
  }

  lemma {:induction false} EmptyTotal(c: Config, n: nat, now: nat)
    ensures RingTotal(c, seq(n, i => Bucket(0, 0)), now) == 0
  {
    if n > 0 {
      EmptyTotal(c, n - 1, now);
      assert seq(n, i => Bucket(0, 0))[..n - 1] == seq(n - 1, i => Bucket(0, 0));
    }
  }

  /** A used bucket starts on a boundary that belongs to its place in the ring. */
  predicate InPlace(c: Config, b: Bucket, i: nat)
    requires ConfigOk(c)
  {
    b.stamp == 0 || (StartOf(c, b.stamp) == b.stamp && IndexFor(c, b.stamp) == i)
  }

  ghost predicate RingOk(c: Config, ring: seq<Bucket>, now: nat)
    requires ConfigOk(c)
  {
    |ring| == Size(c) && forall i :: 0 <= i < |ring| ==> InPlace(c, ring[i], i) && ring[i].stamp <= now
  }

  lemma StartBelow(c: Config, time: nat)
    requires ConfigOk(c)
    ensures StartOf(c, time) <= time < StartOf(c, time) + Duration(c)
  {
    assert time == Slot(c, time) * Duration(c) + time % Duration(c);
  }

  /** Against real time the window is exact to within one bucket: nothing older counts, nothing younger is missed. */
  lemma RecentMeans(c: Config, e: Event, now: nat)
    requires ConfigOk(c) && e.time <= now
    ensures Recent(c, e, now) ==> now - e.time < c.window * 1000
    ensures e.time >= 1000 / c.bucketsPerSecond && now - e.time + 1000 / c.bucketsPerSecond <= c.window * 1000 ==>
              Recent(c, e, now)
  {
    StartBelow(c, e.time);
    hide StartOf;
  }

  lemma StartIsStart(c: Config, time: nat)
    requires ConfigOk(c)
    ensures StartOf(c, StartOf(c, time)) == StartOf(c, time)
    ensures IndexFor(c, StartOf(c, time)) == IndexFor(c, time)
  {
    MultipleDiv(Slot(c, time), Duration(c));
  }

  lemma MultipleDiv(k: nat, d: nat)
    requires d > 0
    ensures (k * d) / d == k
  {
    DivUnique(k * d, d, k);
  }

  lemma DivUnique(n: nat, d: nat, k: nat)
    requires d > 0 && k * d <= n < k * d + d
    ensures n / d == k
  {
    var q := n / d;
    assert n == q * d + n % d;
    if q < k {
      OneMore(q, k, d);
    } else if q > k {
      OneMore(k, q, d);
    }
  }

  lemma OneMore(a: nat, b: nat, d: nat)
    requires a < b
    ensures a * d + d <= b * d
  {
    assert (b - a - 1) * d >= 0;
    assert b * d == a * d + d + (b - a - 1) * d;
  }

  lemma ScaleMono(a: nat, b: nat, d: nat)
    requires a <= b
    ensures a * d <= b * d
  {
    assert (b - a) * d >= 0;
  }

  /** Two numbers in the same place of the ring are a full turn apart. */
  lemma FullTurn(a: nat, b: nat, n: nat)
    requires n > 0 && a < b && a % n == b % n
    ensures a + n <= b
  {
    assert a == (a / n) * n + a % n && b == (b / n) * n + b % n;
    TurnsApart(a, b, n, a / n, b / n, a % n);
  }

  lemma TurnsApart(a: nat, b: nat, n: nat, qa: nat, qb: nat, r: nat)
    requires a == qa * n + r && b == qb * n + r && a < b
    ensures a + n <= b
  {
    if qb <= qa {
      ScaleMono(qb, qa, n);
    } else {
      OneMore(qa, qb, n);
    }
  }

  /** A full turn takes the whole window, when the buckets fill a second exactly. */
  lemma TurnIsWindow(c: Config)
    requires ConfigOk(c)
    ensures Size(c) * Duration(c) <= WindowMs(c)
    ensures 1000 % c.bucketsPerSecond == 0 <==> Size(c) * Duration(c) == WindowMs(c)
  {
    var b, w := c.bucketsPerSecond, c.window;
    var d := 1000 / b;
    assert 1000 == b * d + 1000 % b;
    assert Size(c) * Duration(c) == w * (b * d) by { assert (w * b) * d == w * (b * d); }
    assert w * 1000 == w * (b * d) + w * (1000 % b);
    if 1000 % b > 0 {
      Positive(w, 1000 % b);
    }
  }

  /** What a bucket is reused over has left the window. */
  lemma ReusedIsExpired(c: Config, b: Bucket, now: nat, t: nat)
    requires ConfigOk(c) && 1000 % c.bucketsPerSecond == 0 && InPlace(c, b, IndexFor(c, now))
    requires b.stamp < StartOf(c, now) && now <= t < UINT64
    ensures !BucketValid(c, b.stamp, t)
  {
    if b.stamp != 0 {
      var m, k := Slot(c, b.stamp), Slot(c, now);
      StartBelow(c, now);
      SlotsApart(c, m, k);
      FullTurn(m, k, Size(c));
      Scaled(m, k, Size(c), Duration(c));
      TurnIsWindow(c);
      Plain(t, b.stamp);
    }
  }

  lemma Plain(t: nat, stamp: nat)
    requires stamp <= t < UINT64
    ensures (t - stamp) % UINT64 == t - stamp
  {
  }

  lemma SlotsApart(c: Config, m: nat, k: nat)
    requires ConfigOk(c) && m * Duration(c) < k * Duration(c)
    ensures m < k
  {
    if k <= m {
      ScaleMono(k, m, Duration(c));
    }
  }

  lemma Scaled(m: nat, k: nat, n: nat, d: nat)
    requires m + n <= k
    ensures m * d + n * d <= k * d
  {
    assert (k - m - n) * d >= 0;
    assert k * d == m * d + n * d + (k - m - n) * d;
  }

  lemma RecordKeeps(c: Config, ring: seq<Bucket>, e: Event)
    requires ConfigOk(c) && RingOk(c, ring, e.time)
    ensures RingOk(c, Recorded(c, ring, e), e.time)
  {
    hide StartOf, IndexFor;
    StartBelow(c, e.time);
    StartIsStart(c, e.time);
  }

  /** One event changes the ring's total as it changes the log's. */
  lemma RecordTotal(c: Config, ring: seq<Bucket>, e: Event, t: nat)
    requires ConfigOk(c) && 1000 % c.bucketsPerSecond == 0 && RingOk(c, ring, e.time) && e.time <= t < UINT64
    ensures RingTotal(c, Recorded(c, ring, e), t) == RingTotal(c, ring, t) + if Recent(c, e, t) then e.count else 0
  {
    hide StartOf, IndexFor;
    var i := IndexFor(c, e.time);
    var b := Advanced(c, ring[i], e.time);
    TotalUpdate(c, ring, i, b.(count := b.count + e.count), t);
    StartBelow(c, e.time);
    Plain(t, StartOf(c, e.time));
    if ring[i].stamp < StartOf(c, e.time) {
      ReusedIsExpired(c, ring[i], e.time, t);
    } else {
      SameBucket(c, ring[i], e.time);
    }
  }

  /** A bucket that is not older than the event is the event's own. */
  lemma SameBucket(c: Config, b: Bucket, time: nat)
    requires ConfigOk(c) && InPlace(c, b, IndexFor(c, time)) && StartOf(c, time) <= b.stamp <= time
    ensures b.stamp == StartOf(c, time)
  {
    StartBelow(c, time);
    if b.stamp != 0 {
      DivUnique(b.stamp, Duration(c), Slot(c, time));
    }
  }

  lemma {:induction false} ReplayOk(c: Config, log: seq<Event>, now: nat)
    requires ConfigOk(c) && Timely(log, now)
    ensures RingOk(c, Replay(c, log), now)
  {
    if log != [] {
      var n := |log| - 1;
      ReplayOk(c, log[..n], log[n].time);
      RecordKeeps(c, Replay(c, log[..n]), log[n]);
    }
  }

  /** The ring's answer is the log's answer. */
  ghost predicate Exact(c: Config, log: seq<Event>, now: nat)
    requires ConfigOk(c)
  {
    RingTotal(c, Replay(c, log), now) == LogTotal(c, log, now)
  }

  lemma {:induction false} TotalIsExact(c: Config, log: seq<Event>, now: nat)
    requires ConfigOk(c) && 1000 % c.bucketsPerSecond == 0 && Timely(log, now)
    ensures Exact(c, log, now)
  {
    if log == [] {
      EmptyTotal(c, Size(c), now);
    } else {
      var n := |log| - 1;
      TotalIsExact(c, log[..n], now);
      ReplayOk(c, log[..n], log[n].time);
      RecordTotal(c, Replay(c, log[..n]), log[n], now);
    }
  }

  // ---------------------------------------------------------------- and otherwise it is not

  /** Buckets that do not fill a second: the ring turns before the window is over, and forgets. */
  lemma Forgets(c: Config) returns (log: seq<Event>, now: nat)
    requires ConfigOk(c) && 1000 % c.bucketsPerSecond != 0
    ensures Timely(log, now) && !Exact(c, log, now)
  {
    var d, n := Duration(c), Size(c);
    TurnIsWindow(c);
    now := d + n * d;
    var e1, e2 := Event(d, 1), Event(now, 1);
    log := [e1, e2];
    DurationBound(c.bucketsPerSecond);
    TwoEvents(c, e1, e2);
    OneTurnLater(c);
    Plain(now, d);
    assert log[..1] == [e1] && log[..1][..0] == [];
    assert LogTotal(c, [e1], now) == 1 by { assert [e1][..0] == []; }
    assert LogTotal(c, log, now) == 2;
  }

  lemma DurationBound(b: nat)
    requires 0 < b <= 1000
    ensures 1000 / b <= 1000
  {
    assert 1000 == b * (1000 / b) + 1000 % b;
    OneMore(0, b, 1000 / b);
  }

  lemma OneTurnLater(c: Config)
    requires ConfigOk(c)
    ensures var d, n := Duration(c), Size(c);
            StartOf(c, d) == d && StartOf(c, d + n * d) == d + n * d && IndexFor(c, d) == IndexFor(c, d + n * d)
  {
    var d, n := Duration(c), Size(c);
    MultipleDiv(1, d);
    assert d + n * d == (n + 1) * d;
    MultipleDiv(n + 1, d);
    assert (n + 1) % n == 1 % n by { TurnMod(1, n); }
  }

  lemma TurnMod(k: nat, n: nat)
    requires n > 0
    ensures (n + k) % n == k % n
  {
    var q := k / n;
    assert n + k == (q + 1) * n + k % n;
    DivUnique(n + k, n, q + 1);
  }

  lemma TwoEvents(c: Config, e1: Event, e2: Event)
    requires ConfigOk(c) && e1 == Event(Duration(c), 1) && e2 == Event(Duration(c) + Size(c) * Duration(c), 1)
    ensures RingTotal(c, Replay(c, [e1, e2]), e2.time) <= 1
  {
    hide StartOf, IndexFor;
    var r0 := Empty(c);
    var i := IndexFor(c, e1.time);
    OneTurnLater(c);
    Positive(Size(c), Duration(c));
    assert [e1, e2][..1] == [e1] && [e1][..0] == [];
    assert Replay(c, []) == r0;
    var r1 := Replay(c, [e1]);
    assert r1 == r0[i := Bucket(1, Duration(c))];
    var r2 := Replay(c, [e1, e2]);
    assert r2 == r1[i := Bucket(1, e2.time)];
    assert r2 == r0[i := Bucket(1, e2.time)];
    TotalUpdate(c, r0, i, Bucket(1, e2.time), e2.time);
    EmptyTotal(c, Size(c), e2.time);
  }

  /** The counter agrees with the log on every history exactly when the buckets divide a second. */
  lemma ExactIff(c: Config)
    requires ConfigOk(c)
    ensures (forall log, now :: Timely(log, now) ==> Exact(c, log, now)) <==> 1000 % c.bucketsPerSecond == 0
  {
    if 1000 % c.bucketsPerSecond == 0 {
      forall log, now | Timely(log, now)
        ensures Exact(c, log, now)
      {
        TotalIsExact(c, log, now);
      }
    } else {
      var log, now := Forgets(c);
    }
  }

  // ---------------------------------------------------------------- the counter

  class Counter {
    const config: Config
    const buckets: array<Bucket>
    var allTimeTotal: nat

    ghost predicate Valid()
      reads this, buckets
    {
      ConfigOk(config) && buckets.Length == Size(config)
    }

    /** The counter has seen exactly these events. */
    ghost predicate Saw(log: seq<Event>)
      requires Valid()
      reads this, buckets
    {
      buckets[..] == Replay(config, log) && allTimeTotal == AllTime(log)
    }

    constructor (c: Config)
      requires ConfigOk(c)
      ensures Valid() && config == c && fresh(buckets) && Saw([])
    {
      config := c;
      buckets := new Bucket[Size(c)](i => Bucket(0, 0));
      allTimeTotal := 0;
      new;
      assert buckets[..] == Empty(c);
    }

    method Increment(count: nat, now: nat, ghost log: seq<Event>)
      requires Valid() && Saw(log)
      modifies this`allTimeTotal, buckets
      ensures Valid() && Saw(log + [Event(now, count)])
    {
      ghost var more := log + [Event(now, count)];
      assert more[..|log|] == log;
      var i := IndexFor(config, now);
      AdvanceBucket(i, now);
      buckets[i] := buckets[i].(count := buckets[i].count + count);
      allTimeTotal := allTimeTotal + count;
      assert buckets[..] == Recorded(config, old(buckets[..]), Event(now, count));
    }

    method AdvanceBucket(i: nat, now: nat)
      requires Valid() && i < buckets.Length
      modifies buckets
      ensures buckets[..] == old(buckets[..])[i := Advanced(config, old(buckets[i]), now)]
    {
      var expected := (now / Duration(config)) * Duration(config);
      if buckets[i].stamp < expected {
        buckets[i] := Bucket(0, expected);
      }
    }

    /** With buckets that divide a second, the sum over the log. */
    method TotalInWindow(now: nat, ghost log: seq<Event>) returns (total: nat)
      requires Valid() && Saw(log) && Timely(log, now)
      ensures total == RingTotal(config, buckets[..], now)
      ensures 1000 % config.bucketsPerSecond == 0 ==> total == LogTotal(config, log, now)
    {
      total := 0;
      for i := 0 to buckets.Length
        invariant total == RingTotal(config, buckets[..i], now)
      {
        assert buckets[..i + 1][..i] == buckets[..i];
        if BucketValid(config, buckets[i].stamp, now) {
          total := total + buckets[i].count;
        }
      }
      assert buckets[..buckets.Length] == buckets[..];
      if 1000 % config.bucketsPerSecond == 0 {
        TotalIsExact(config, log, now);
      }
    }

    method Reset()
      requires Valid()
      modifies this`allTimeTotal, buckets
      ensures Valid() && Saw([])
    {
      for i := 0 to buckets.Length
        invariant forall j :: 0 <= j < i ==> buckets[j] == Bucket(0, 0)
      {
        buckets[i] := Bucket(0, 0);
      }
      allTimeTotal := 0;
      assert buckets[..] == Empty(config);
    }
  }
}
