/** Sums over the values of a finite map. */
module MapSums {

  ghost function Sum(m: map<nat, nat>): nat
    decreases |m|
  {
    if m == map[] then 0 else var k :| k in m; m[k] + Sum(m - {k})
  }

  lemma {:induction false} SumRemove(m: map<nat, nat>, k: nat)
    requires k in m
    ensures Sum(m) == m[k] + Sum(m - {k})
    decreases |m|
  {
    var j :| j in m && Sum(m) == m[j] + Sum(m - {j});
    if j != k {
      SumRemove(m - {j}, k);
      SumRemove(m - {k}, j);
      assert m - {j} - {k} == m - {k} - {j};
    }
  }

  lemma {:induction false} SumAtMost(m: map<nat, nat>, m': map<nat, nat>)
    requires m.Keys == m'.Keys && forall k :: k in m ==> m'[k] <= m[k]
    ensures Sum(m') <= Sum(m)
    decreases |m|
  {
    if m != map[] {
      var k :| k in m;
      SumRemove(m, k);
      SumRemove(m', k);
      SumAtMost(m - {k}, m' - {k});
    }
  }

  lemma SumBelow(m: map<nat, nat>, m': map<nat, nat>, id: nat)
    requires m.Keys == m'.Keys && forall k :: k in m ==> m'[k] <= m[k]
    requires id in m && m'[id] < m[id]
    ensures Sum(m') < Sum(m)
  {
    SumRemove(m, id);
    SumRemove(m', id);
    SumAtMost(m - {id}, m' - {id});
  }

  lemma SumUpdate(m: map<nat, nat>, k: nat, v: nat)
    ensures Sum(m[k := v]) + (if k in m then m[k] else 0) == Sum(m) + v
  {
    SumRemove(m[k := v], k);
    assert m[k := v] - {k} == m - {k};
    if k in m {
      SumRemove(m, k);
    } else {
      assert m - {k} == m;
    }
  }
}
