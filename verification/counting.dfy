/** How many entries of a map satisfy a predicate: the bookkeeping behind the conservation laws. */
module Counting {

  ghost function Having<K(!new), V>(m: map<K, V>, p: V -> bool): (ks: set<K>)
    ensures forall k :: k in ks <==> k in m && p(m[k])
  {
    set k | k in m && p(m[k])
  }

  ghost function Count<K(!new), V>(m: map<K, V>, p: V -> bool): nat {
    |Having(m, p)|
  }

  function One(b: bool): nat {
    if b then 1 else 0
  }

  lemma HavingPut<K(!new), V>(m: map<K, V>, p: V -> bool, k: K, v: V)
    ensures Having(m[k := v], p) == if p(v) then Having(m, p) + {k} else Having(m, p) - {k}
  {
    var after := Having(m[k := v], p);
    forall j ensures j in after <==> (if j == k then p(v) else j in Having(m, p)) {
    }
  }

  /** One entry changes: the count follows it. */
  lemma CountPut<K(!new), V>(m: map<K, V>, p: V -> bool, k: K, v: V)
    ensures Count(m[k := v], p) == Count(m, p) + One(p(v)) - One(k in m && p(m[k]))
  {
    HavingPut(m, p, k, v);
    assert k in Having(m, p) <==> k in m && p(m[k]);
  }

  lemma CountNone<K(!new), V>(m: map<K, V>, p: V -> bool)
    requires forall k :: k in m ==> !p(m[k])
    ensures Count(m, p) == 0
  {
    assert Having(m, p) == {};
  }

  lemma CountOne<K(!new), V>(m: map<K, V>, p: V -> bool, k: K)
    requires k in m && p(m[k])
    ensures Count(m, p) >= 1
  {
    assert k in Having(m, p);
  }

  lemma CountSome<K(!new), V>(m: map<K, V>, p: V -> bool) returns (k: K)
    requires Count(m, p) > 0
    ensures k in m && p(m[k])
  {
    k :| k in Having(m, p);
  }

  /** Two predicates that exclude each other share out a third. */
  lemma CountBoth<K(!new), V>(m: map<K, V>, p: V -> bool, q: V -> bool, both: V -> bool)
    requires forall k :: k in m ==> !(p(m[k]) && q(m[k])) && (both(m[k]) <==> p(m[k]) || q(m[k]))
    ensures Count(m, both) == Count(m, p) + Count(m, q)
  {
    assert Having(m, both) == Having(m, p) + Having(m, q);
    assert Having(m, p) * Having(m, q) == {};
  }

  lemma CountLess<K(!new), V>(m: map<K, V>, p: V -> bool, q: V -> bool)
    requires forall k :: k in m && p(m[k]) ==> q(m[k])
    ensures Count(m, p) <= Count(m, q)
  {
    var a, b := Having(m, p), Having(m, q);
    assert a <= b;
    assert |b| == |b - a| + |a|;
  }

  ghost function Sum<K, V>(m: map<K, V>, f: V -> nat): nat {
    if m == map[] then 0 else var k :| k in m; f(m[k]) + Sum(m - {k}, f)
  }

  lemma {:induction false} SumWithout<K, V>(m: map<K, V>, f: V -> nat, k: K)
    requires k in m
    ensures Sum(m, f) == f(m[k]) + Sum(m - {k}, f)
  {
    var j :| j in m && Sum(m, f) == f(m[j]) + Sum(m - {j}, f);
    if j != k {
      SumWithout(m - {j}, f, k);
      SumWithout(m - {k}, f, j);
      assert m - {j} - {k} == m - {k} - {j};
    }
  }

  /** One entry changes: the sum follows it. */
  lemma SumPut<K, V>(m: map<K, V>, f: V -> nat, k: K, v: V)
    ensures Sum(m[k := v], f) == Sum(m, f) + f(v) - if k in m then f(m[k]) else 0
  {
    SumWithout(m[k := v], f, k);
    assert m[k := v] - {k} == m - {k};
    if k in m {
      SumWithout(m, f, k);
    } else {
      assert m - {k} == m;
    }
  }
}
