/** Sums over maps and sequences. */
module Sums {
  ghost function Sum<K>(m: map<K, nat>): nat
    decreases |m|
  {
    if m == map[] then 0
    else
      var k :| k in m;
      SmallerMap(m, k);
      m[k] + Sum(m - {k})
  }

  lemma SmallerMap<K, V>(m: map<K, V>, k: K)
    requires k in m
    ensures |m - {k}| == |m| - 1
  {
    assert (m - {k}).Keys == m.Keys - {k};
    assert |m.Keys| == |m| && |(m - {k}).Keys| == |m - {k}|;
  }

  function Get<K>(m: map<K, nat>, k: K): nat { if k in m then m[k] else 0 }

  /** Any key can be taken out first. */
  lemma {:induction false} SumRemove<K>(m: map<K, nat>, k: K)
    requires k in m
    ensures Sum(m) == m[k] + Sum(m - {k})
    decreases |m|
  {
    var j :| j in m && Sum(m) == m[j] + Sum(m - {j});
    if j != k {
      SmallerMap(m, j);
      SmallerMap(m, k);
      SumRemove(m - {j}, k);
      SumRemove(m - {k}, j);
      assert m - {j} - {k} == m - {k} - {j};
    }
  }

  lemma SumWithout<K>(m: map<K, nat>, k: K)
    ensures Sum(m - {k}) == Sum(m) - Get(m, k)
  {
    if k in m { SumRemove(m, k); } else { assert m - {k} == m; }
  }

  lemma SumUpdate<K>(m: map<K, nat>, k: K, v: nat)
    ensures Sum(m[k := v]) == Sum(m) - Get(m, k) + v
  {
    SumRemove(m[k := v], k);
    assert m[k := v] - {k} == m - {k};
    SumWithout(m, k);
  }

  /** A part of a map sums to no more, and to the same if and only if what is missing is zero. */
  lemma {:induction false} SumPart<K>(m: map<K, nat>, n: map<K, nat>)
    requires forall k :: k in n ==> k in m && n[k] == m[k]
    ensures Sum(n) <= Sum(m) && (Sum(n) == Sum(m) <==> forall k :: k in m && k !in n ==> m[k] == 0)
    decreases |m|
  {
    if m == map[] {
      assert n == map[];
    } else {
      var j :| j in m;
      SmallerMap(m, j);
      SumRemove(m, j);
      if j in n { SumRemove(n, j); } else { assert n - {j} == n; }
      SumPart(m - {j}, n - {j});
      assert forall k :: k in m - {j} && k !in n - {j} <==> k in m && k !in n && k != j;
    }
  }

  /** Where every value of a map falls or stays, so does the sum, and it stays if and only if they all do. */
  lemma {:induction false} SumFalls<K>(m: map<K, nat>, n: map<K, nat>)
    requires n.Keys == m.Keys && forall k :: k in m ==> n[k] <= m[k]
    ensures Sum(n) <= Sum(m) && (Sum(n) == Sum(m) <==> forall k :: k in m ==> n[k] == m[k])
    decreases |m|
  {
    if m == map[] {
      assert n == map[];
    } else {
      var j :| j in m;
      SmallerMap(m, j);
      SumRemove(m, j);
      SumRemove(n, j);
      SumFalls(m - {j}, n - {j});
      assert forall k :: k in m <==> k in m - {j} || k == j;
    }
  }

  function Total(s: seq<nat>): nat {
    if s == [] then 0 else Total(s[..|s| - 1]) + s[|s| - 1]
  }
}
