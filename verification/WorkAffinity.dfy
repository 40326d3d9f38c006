/** The work-affinity tracker: steals between pairs of workers in a triangular matrix. */
module WorkAffinity {

  type Worker = nat

  const MAX_TRACKED_WORKERS: nat := 32

  // ---------------------------------------------------------------- the triangular index

  /** The place of the pair `i < j` in the upper triangle of an `n` by `n` matrix, as computed. */
  function Cell(n: nat, i: nat, j: nat): int {
    i * n - i * (i + 1) / 2 + j - i - 1
  }

  function Triangle(i: nat): nat {
    if i == 0 then 0 else Triangle(i - 1) + i
  }

  lemma {:induction false} TriangleTwice(i: nat)
    ensures i * (i + 1) == 2 * Triangle(i)
  {
    if i > 0 {
      TriangleTwice(i - 1);
      assert i * (i + 1) == (i - 1) * i + 2 * i;
    }
  }

  /** Where the row of `i` starts: the earlier rows have `n - 1`, `n - 2`, ... cells. */
  function Row(n: nat, i: nat): int {
    if i == 0 then 0 else Row(n, i - 1) + (n - i)
  }

  lemma {:induction false} RowClosed(n: nat, i: nat)
    ensures Row(n, i) == i * n - Triangle(i)
  {
    if i > 0 {
      RowClosed(n, i - 1);
      assert i * n == (i - 1) * n + n;
    }
  }

  lemma CellIsRow(n: nat, i: nat, j: nat)
    ensures Cell(n, i, j) == Row(n, i) + j - i - 1
  {
    TriangleTwice(i);
    RowClosed(n, i);
  }

  lemma {:induction false} RowsGrow(n: nat, i: nat, k: nat)
    requires i <= k <= n
    ensures Row(n, i) <= Row(n, k)
    decreases k
  {
    if i < k {
      RowsGrow(n, i, k - 1);
    }
  }

  function MatrixSize(n: nat): nat {
    n * (n - 1) / 2
  }

  lemma SizeIsRow(n: nat)
    requires n > 0
    ensures MatrixSize(n) == Row(n, n - 1) && Row(n, n) == Row(n, n - 1)
  {
    RowClosed(n, n - 1);
    TriangleTwice(n - 1);
    assert (n - 1) * n == n * (n - 1);
  }

  /** Every pair has a cell in the matrix, and no intermediate unsigned value goes below zero. */
  lemma CellInRange(n: nat, i: nat, j: nat)
    requires i < j < n
    ensures i * n - i * (i + 1) / 2 >= 0 && i * n - i * (i + 1) / 2 + j - i >= 0
    ensures Row(n, i) <= Cell(n, i, j) < Row(n, i + 1) && 0 <= Cell(n, i, j) < MatrixSize(n)
  {
    CellIsRow(n, i, j);
    TriangleTwice(i);
    RowClosed(n, i);
    RowsGrow(n, 0, i);
    RowsGrow(n, i + 1, n - 1);
    SizeIsRow(n);
  }

  /** Different pairs have different cells. */
  lemma CellInjective(n: nat, i: nat, j: nat, i': nat, j': nat)
    requires i < j < n && i' < j' < n && Cell(n, i, j) == Cell(n, i', j')
    ensures i == i' && j == j'
  {
    CellInRange(n, i, j);
    CellInRange(n, i', j');
    if i < i' {
      RowsGrow(n, i + 1, i');
    } else if i' < i {
      RowsGrow(n, i' + 1, i);
    }
    CellIsRow(n, i, j);
    CellIsRow(n, i', j');
  }

  /** Every cell of the matrix belongs to a pair. */
  lemma CellSurjective(n: nat, c: nat) returns (i: nat, j: nat)
    requires c < MatrixSize(n)
    ensures i < j < n && Cell(n, i, j) == c
  {
    assert n > 0;
    SizeIsRow(n);
    i := RowOf(n, c, n - 1);
    j := c - Row(n, i) + i + 1;
    CellIsRow(n, i, j);
  }

  lemma {:induction false} RowOf(n: nat, c: nat, k: nat) returns (i: nat)
    requires k < n && c < Row(n, k)
    ensures i < k && Row(n, i) <= c < Row(n, i + 1)
  {
    if c >= Row(n, k - 1) {
      i := k - 1;
    } else {
      i := RowOf(n, c, k - 1);
    }
  }

  // ---------------------------------------------------------------- the steals that are recorded

  datatype Steal = Steal(thief: Worker, victim: Worker)

  predicate Tracked(n: nat, e: Steal) {
    e.thief < n && e.victim < n && e.thief != e.victim
  }

  function Low(a: Worker, b: Worker): Worker {
    if a < b then a else b
  }

  function High(a: Worker, b: Worker): Worker {
    if a < b then b else a
  }

  predicate Between(e: Steal, i: Worker, j: Worker) {
    (e.thief == i && e.victim == j) || (e.thief == j && e.victim == i)
  }

  /** How often workers `i` and `j` stole from each other. */
  ghost function Steals(log: seq<Steal>, i: Worker, j: Worker): nat {
    if log == [] then 0
    else Steals(log[..|log| - 1], i, j) + if Between(log[|log| - 1], i, j) then 1 else 0
  }

  ghost function TrackedSteals(n: nat, log: seq<Steal>): nat {
    if log == [] then 0
    else TrackedSteals(n, log[..|log| - 1]) + if Tracked(n, log[|log| - 1]) then 1 else 0
  }

  function Sum(s: seq<nat>): nat {
    if s == [] then 0 else Sum(s[..|s| - 1]) + s[|s| - 1]
  }

  lemma {:induction false} SumUpdate(s: seq<nat>, i: nat, v: nat)
    requires i < |s|
    ensures Sum(s[i := v]) + s[i] == Sum(s) + v
  {
    var n := |s| - 1;
    if i == n {
      assert s[i := v][..n] == s[..n];
    } else {
      SumUpdate(s[..n], i, v);
      assert s[i := v][..n] == s[..n][i := v];
    }
  }

  lemma {:induction false} SumZero(n: nat)
    ensures Sum(seq(n, i => 0)) == 0
  {
    if n > 0 {
      SumZero(n - 1);
      assert seq(n, i => 0)[..n - 1] == seq(n - 1, i => 0);
    }
  }

  /** Each cell counts the steals of its pair, and together they are all the tracked steals. */
  ghost predicate Counts(n: nat, cells: seq<nat>, log: seq<Steal>) {
    && |cells| == MatrixSize(n)
    && (forall i, j :: 0 <= i < j < n ==> CellHolds(n, cells, log, i, j))
    && Sum(cells) == TrackedSteals(n, log)
  }

  ghost predicate CellHolds(n: nat, cells: seq<nat>, log: seq<Steal>, i: Worker, j: Worker) {
    0 <= Cell(n, i, j) < |cells| && cells[Cell(n, i, j)] == Steals(log, i, j)
  }

  lemma StealsSymmetric(log: seq<Steal>, i: Worker, j: Worker)
    ensures Steals(log, i, j) == Steals(log, j, i)
  {
  }

  lemma CountsEmpty(n: nat)
    ensures Counts(n, seq(MatrixSize(n), i => 0), [])
  {
    var zeros := seq(MatrixSize(n), i => 0);
    SumZero(MatrixSize(n));
    forall i, j | 0 <= i < j < n
      ensures CellHolds(n, zeros, [], i, j)
    {
      CellInRange(n, i, j);
    }
  }

  lemma CountsMore(n: nat, cells: seq<nat>, log: seq<Steal>, e: Steal)
    requires Counts(n, cells, log) && Tracked(n, e)
    ensures var c := Cell(n, Low(e.thief, e.victim), High(e.thief, e.victim));
            0 <= c < |cells| && Counts(n, cells[c := cells[c] + 1], log + [e])
  {
    hide Cell, Row;
    var a, b := Low(e.thief, e.victim), High(e.thief, e.victim);
    assert CellHolds(n, cells, log, a, b);
    var c := Cell(n, a, b);
    var cells', log' := cells[c := cells[c] + 1], log + [e];
    assert log'[..|log|] == log;
    SumUpdate(cells, c, cells[c] + 1);
    forall i, j | 0 <= i < j < n
      ensures CellHolds(n, cells', log', i, j)
    {
      assert CellHolds(n, cells, log, i, j);
      if Cell(n, i, j) == c {
        CellInjective(n, i, j, a, b);
      }
    }
  }

  lemma CountsSame(n: nat, cells: seq<nat>, log: seq<Steal>, e: Steal)
    requires Counts(n, cells, log) && !Tracked(n, e)
    ensures Counts(n, cells, log + [e])
  {
    hide Cell;
    var log' := log + [e];
    assert log'[..|log|] == log;
    forall i, j | 0 <= i < j < n
      ensures CellHolds(n, cells, log', i, j)
    {
      assert CellHolds(n, cells, log, i, j);
    }
  }

  /** A floating-point score; dividing a positive count by a history size of zero is infinite. */
  datatype Score = Finite(value: real) | Infinite

  predicate AtLeast(a: Score, b: Score) {
    a.Infinite? || (b.Finite? && a.value >= b.value)
  }

  function Quotient(count: nat, history: nat): Score {
    if count == 0 then Finite(0.0) else if history == 0 then Infinite else Finite(count as real / history as real)
  }

  /** The score is the part of the history that `count` steals are. */
  predicate IsShare(score: Score, count: nat, history: nat) {
    score.Finite? && score.value * history as real == count as real
  }

  lemma QuotientIs(count: nat, history: nat)
    requires history > 0
    ensures IsShare(Quotient(count, history), count, history)
  {
  }

  /** The steals between two tracked workers over the history size. */
  ghost function Affinity(n: nat, history: nat, log: seq<Steal>, a: Worker, b: Worker): Score {
    if a < n && b < n && a != b then Quotient(Steals(log, a, b), history) else Finite(0.0)
  }

  /** Whatever the history size, scores compare as the steals do. */
  lemma AffinityOrders(n: nat, history: nat, log: seq<Steal>, worker: Worker, a: Worker, b: Worker)
    requires worker < n && a < n && b < n && worker != a && worker != b
    ensures Steals(log, worker, a) >= Steals(log, worker, b) ==>
              AtLeast(Affinity(n, history, log, worker, a), Affinity(n, history, log, worker, b))
    ensures history > 0 && AtLeast(Affinity(n, history, log, worker, a), Affinity(n, history, log, worker, b)) ==>
              Steals(log, worker, a) >= Steals(log, worker, b)
  {
    var x, y := Steals(log, worker, a), Steals(log, worker, b);
    if history > 0 {
      QuotientOrders(x, y, history);
    }
  }

  lemma QuotientOrders(x: nat, y: nat, h: nat)
    requires h > 0
    ensures Quotient(x, h) == Finite(x as real / h as real) && Quotient(y, h) == Finite(y as real / h as real)
    ensures x >= y <==> x as real / h as real >= y as real / h as real
  {
    var p, q := x as real / h as real, y as real / h as real;
    assert p * h as real == x as real && q * h as real == y as real;
    if x >= y && p < q {
      ProductSign(q - p, h as real);
    } else if x < y && p >= q {
      ProductSign(p - q, h as real);
    }
  }

  lemma ProductSign(a: real, b: real)
    requires a >= 0.0 && b >= 0.0
    ensures a * b >= 0.0
  {
  }

  /** What `worker` thinks of every tracked worker. */
  ghost function Affinities(n: nat, history: nat, log: seq<Steal>, worker: Worker): map<Worker, Score> {
    map w: Worker | w < n :: Affinity(n, history, log, worker, w)
  }

  /** The first of `n` workers by affinity, without `worker`, at most `count` of them. */
  ghost predicate Preferred(f: map<Worker, Score>, n: nat, worker: Worker, count: nat, r: seq<Worker>) {
    && |r| == (if worker >= n then 0 else if count < n - 1 then count else n - 1)
    && (forall w :: w in r ==> w < n && w != worker && w in f)
    && (forall i, j :: 0 <= i < j < |r| ==> r[i] != r[j])
    && (forall i, j :: 0 <= i < j < |r| && r[i] in f && r[j] in f ==> AtLeast(f[r[i]], f[r[j]]))
    && forall v, w :: v in r && v in f && w in f && w < n && w != worker && w !in r ==> AtLeast(f[v], f[w])
  }

  // ---------------------------------------------------------------- sorting by affinity

  datatype Scored = Scored(affinity: Score, id: Worker)

  predicate Descending(s: seq<Scored>) {
    forall i, j :: 0 <= i < j < |s| ==> AtLeast(s[i].affinity, s[j].affinity)
  }

  predicate NoRepeats(s: seq<Scored>) {
    forall i, j :: 0 <= i < j < |s| ==> s[i] != s[j]
  }

  /** Any sorting will do: the order of equal affinities is not fixed. */
  method SortDescending(s: seq<Scored>) returns (r: seq<Scored>)
    ensures Descending(r) && multiset(r) == multiset(s)
  {
    r := [];
    for k := 0 to |s|
      invariant Descending(r) && multiset(r) == multiset(s[..k])
    {
      assert s[..k + 1] == s[..k] + [s[k]];
      r := Insert(r, s[k]);
    }
    assert s[..|s|] == s;
  }

  method Insert(s: seq<Scored>, x: Scored) returns (r: seq<Scored>)
    requires Descending(s)
    ensures Descending(r) && multiset(r) == multiset(s) + multiset{x}
  {
    var p := 0;
    while p < |s| && AtLeast(s[p].affinity, x.affinity)
      invariant 0 <= p <= |s| && forall i :: 0 <= i < p ==> AtLeast(s[i].affinity, x.affinity)
    {
      p := p + 1;
    }
    r := s[..p] + [x] + s[p..];
    Inserted(s, x, p);
  }

  lemma Inserted(s: seq<Scored>, x: Scored, p: nat)
    requires Descending(s) && p <= |s| && (p < |s| ==> !AtLeast(s[p].affinity, x.affinity))
    requires forall i :: 0 <= i < p ==> AtLeast(s[i].affinity, x.affinity)
    ensures Descending(s[..p] + [x] + s[p..])
    ensures multiset(s[..p] + [x] + s[p..]) == multiset(s) + multiset{x}
  {
    hide Descending;
    var r := s[..p] + [x] + s[p..];
    assert Descending(r) by {
      forall i, j | 0 <= i < j < |r|
        ensures AtLeast(r[i].affinity, r[j].affinity)
      {
        InsertedPair(s, x, p, i, j);
      }
      PairsDescend(r);
    }
    assert s == s[..p] + s[p..];
    assert multiset(s) == multiset(s[..p]) + multiset(s[p..]);
  }

  lemma PairsDescend(r: seq<Scored>)
    requires forall i, j :: 0 <= i < j < |r| ==> AtLeast(r[i].affinity, r[j].affinity)
    ensures Descending(r)
  {
  }

  lemma InsertedPair(s: seq<Scored>, x: Scored, p: nat, i: nat, j: nat)
    requires Descending(s) && p <= |s| && (p < |s| ==> !AtLeast(s[p].affinity, x.affinity))
    requires forall k :: 0 <= k < p ==> AtLeast(s[k].affinity, x.affinity)
    requires i < j <= |s|
    ensures var r := s[..p] + [x] + s[p..]; AtLeast(r[i].affinity, r[j].affinity)
  {
    var r := s[..p] + [x] + s[p..];
    assert r[i] == if i < p then s[i] else if i == p then x else s[i - 1];
    assert r[j] == if j < p then s[j] else if j == p then x else s[j - 1];
    if p < j && p < j - 1 {
      assert AtLeast(s[p].affinity, s[j - 1].affinity);
    }
  }

  lemma {:induction false} RepeatsCount(s: seq<Scored>)
    ensures NoRepeats(s) <==> forall x :: multiset(s)[x] <= 1
  {
    if s != [] {
      var n := |s| - 1;
      var t := s[..n];
      RepeatsCount(t);
      assert s == t + [s[n]];
      if NoRepeats(s) {
        assert s[n] !in t;
      } else if NoRepeats(t) {
        var i :| 0 <= i < n && s[i] == s[n];
        assert t[i] in t;
        assert multiset(s)[s[n]] >= 2;
      } else {
        var x :| multiset(t)[x] > 1;
        assert multiset(s)[x] > 1;
      }
    }
  }

  // ---------------------------------------------------------------- the tracker

  class Tracker {
    const workerCount: nat
    const trackedCount: nat
    const historySize: nat
    const matrix: array<nat>
    var totalCooperations: nat

    ghost predicate Valid()
      reads this, matrix
    {
      trackedCount <= MAX_TRACKED_WORKERS && matrix.Length == MatrixSize(trackedCount)
    }

    /** The tracker has seen exactly these steals. */
    ghost predicate Saw(log: seq<Steal>)
      reads this, matrix
    {
      Valid() && Counts(trackedCount, matrix[..], log) && totalCooperations == TrackedSteals(trackedCount, log)
    }

    constructor (workers: nat, history: nat)
      ensures Saw([]) && fresh(matrix) && workerCount == workers && historySize == history
      ensures trackedCount == if workers < MAX_TRACKED_WORKERS then workers else MAX_TRACKED_WORKERS
    {
      workerCount, historySize, totalCooperations := workers, history, 0;
      var tracked := if workers < MAX_TRACKED_WORKERS then workers else MAX_TRACKED_WORKERS;
      trackedCount := tracked;
      matrix := new nat[MatrixSize(tracked)](i => 0);
      new;
      CountsEmpty(trackedCount);
      assert matrix[..] == seq(MatrixSize(trackedCount), i => 0);
    }

    method RecordCooperation(thief: Worker, victim: Worker, ghost log: seq<Steal>)
      requires Saw(log)
      modifies this`totalCooperations, matrix
      ensures Saw(log + [Steal(thief, victim)])
    {
      hide Counts, Cell;
      ghost var e := Steal(thief, victim);
      assert (log + [e])[..|log|] == log;
      if thief >= trackedCount || victim >= trackedCount || thief == victim {
        CountsSame(trackedCount, matrix[..], log, e);
        return;
      }
      CountsMore(trackedCount, matrix[..], log, e);
      var idx := Cell(trackedCount, Low(thief, victim), High(thief, victim));
      if idx < matrix.Length {
        ghost var before := matrix[..];
        matrix[idx] := matrix[idx] + 1;
        totalCooperations := totalCooperations + 1;
        assert matrix[..] == before[idx := before[idx] + 1];
      }
    }

    method GetAffinity(a: Worker, b: Worker, ghost log: seq<Steal>) returns (r: Score)
      requires Saw(log)
      ensures r == Affinity(trackedCount, historySize, log, a, b)
      ensures a < trackedCount && b < trackedCount && a != b && historySize > 0 ==>
                IsShare(r, Steals(log, a, b), historySize)
      ensures a >= trackedCount || b >= trackedCount || a == b || Steals(log, a, b) == 0 ==> r == Finite(0.0)
      ensures r.Infinite? <==>
                a < trackedCount && b < trackedCount && a != b && Steals(log, a, b) > 0 && historySize == 0
    {
      hide IsShare;
      if historySize > 0 {
        QuotientIs(Steals(log, a, b), historySize);
      }
      if a >= trackedCount || b >= trackedCount || a == b {
        return Finite(0.0);
      }
      assert CellHolds(trackedCount, matrix[..], log, Low(a, b), High(a, b));
      StealsSymmetric(log, a, b);
      hide Cell;
      var idx := Cell(trackedCount, Low(a, b), High(a, b));
      var count := matrix[idx];
      if count == 0 {
        return Finite(0.0);
      }
      r := Quotient(count, historySize);
    }

    /** The tracked workers with the highest affinities, at most `maxCount`, without the caller. */
    method GetPreferredVictims(worker: Worker, maxCount: nat, ghost log: seq<Steal>) returns (r: seq<Worker>)
      requires Saw(log)
      ensures Preferred(Affinities(trackedCount, historySize, log, worker), trackedCount, worker, maxCount, r)
    {
      hide Counts;
      if worker >= trackedCount || maxCount == 0 {
        return [];
      }
      hide Affinity;
      var list := Candidates(worker, log);
      hide Preferred;
      var sorted := SortDescending(list);
      SameScores(list, sorted);
      var n := if maxCount < |sorted| then maxCount else |sorted|;
      r := [];
      for i := 0 to n
        invariant |r| == i && forall k :: 0 <= k < i ==> r[k] == sorted[k].id
      {
        r := r + [sorted[i].id];
      }
      FirstArePreferred(Affinities(trackedCount, historySize, log, worker), trackedCount, worker, maxCount, sorted, r);
    }

    /** All tracked workers but the caller, once each, with their affinities. */
    method Candidates(worker: Worker, ghost log: seq<Steal>) returns (list: seq<Scored>)
      requires Saw(log) && worker < trackedCount
      ensures |list| == trackedCount - 1 && NoRepeats(list)
      ensures forall x :: x in list <==>
                x.id < trackedCount && x.id != worker
                && x.affinity == Affinity(trackedCount, historySize, log, worker, x.id)
    {
      hide Counts, Affinity;
      list := [];
      for i := 0 to trackedCount
        invariant |list| == if i > worker then i - 1 else i
        invariant NoRepeats(list)
        invariant forall x :: x in list <==>
                    x.id < i && x.id != worker && x.affinity == Affinity(trackedCount, historySize, log, worker, x.id)
      {
        if i != worker {
          var a := GetAffinity(worker, i, log);
          list := list + [Scored(a, i)];
        }
      }
    }

    method Reset()
      requires Valid()
      modifies this`totalCooperations, matrix
      ensures Saw([])
    {
      for i := 0 to matrix.Length
        invariant forall j :: 0 <= j < i ==> matrix[j] == 0
      {
        matrix[i] := 0;
      }
      totalCooperations := 0;
      CountsEmpty(trackedCount);
      assert matrix[..] == seq(MatrixSize(trackedCount), i => 0);
    }
  }

  lemma FirstArePreferred(f: map<Worker, Score>, n: nat, worker: Worker, count: nat,
                          sorted: seq<Scored>, r: seq<Worker>)
    requires worker < n && (forall w: Worker :: w in f <==> w < n) && Descending(sorted) && NoRepeats(sorted)
    requires |sorted| == n - 1
    requires forall x :: x in sorted <==> x.id < n && x.id != worker && x.affinity == f[x.id]
    requires |r| == (if count < |sorted| then count else |sorted|) && forall k :: 0 <= k < |r| ==> r[k] == sorted[k].id
    ensures Preferred(f, n, worker, count, r)
  {
    forall i | 0 <= i < |r|
      ensures r[i] < n && r[i] != worker && f[r[i]] == sorted[i].affinity
    {
      assert sorted[i] in sorted;
    }
    forall i, j | 0 <= i < j < |r|
      ensures r[i] != r[j]
    {
      assert sorted[i] in sorted && sorted[j] in sorted;
    }
    forall v, w | v in r && w in f && w < n && w != worker && w !in r
      ensures AtLeast(f[v], f[w])
    {
      OneLeftOut(f, n, worker, sorted, r, v, w);
    }
  }

  lemma OneLeftOut(f: map<Worker, Score>, n: nat, worker: Worker,
                   sorted: seq<Scored>, r: seq<Worker>, v: Worker, w: Worker)
    requires (forall w: Worker :: w in f <==> w < n) && Descending(sorted) && |r| <= |sorted|
    requires forall x :: x in sorted <==> x.id < n && x.id != worker && x.affinity == f[x.id]
    requires forall k :: 0 <= k < |r| ==> r[k] == sorted[k].id
    requires v in r && w < n && w != worker && w !in r
    ensures v < n && AtLeast(f[v], f[w])
  {
    var i :| 0 <= i < |r| && r[i] == v;
    assert sorted[i] in sorted;
    var x := Scored(f[w], w);
    assert x in sorted;
    var k :| 0 <= k < |sorted| && sorted[k] == x;
    assert k >= |r|;
  }

  lemma SameScores(a: seq<Scored>, b: seq<Scored>)
    requires multiset(a) == multiset(b) && NoRepeats(a)
    ensures NoRepeats(b) && |a| == |b| && forall x :: x in b <==> x in a
  {
    RepeatsCount(a);
    RepeatsCount(b);
    assert |a| == |multiset(a)| && |b| == |multiset(b)|;
    forall x
      ensures x in b <==> x in a
    {
      assert x in b <==> x in multiset(b);
      assert x in a <==> x in multiset(a);
    }
  }
}
