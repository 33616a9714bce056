/** Sums of natural numbers held in a finite map, used for byte accounting. */
module Sums {

  ghost function Sum<K>(m: map<K, nat>): nat
  {
    if m == map[] then 0
    else
      var k :| k in m;
      m[k] + Sum(m - {k})
  }

  // The sum does not depend on the order in which keys are taken out.
  lemma {:induction false} SumRemove<K>(m: map<K, nat>, k: K)
    requires k in m
    ensures Sum(m) == m[k] + Sum(m - {k})
    decreases |m|
  {
    var j :| j in m && Sum(m) == m[j] + Sum(m - {j});
    if j != k {
      SumRemove(m - {j}, k);
      SumRemove(m - {k}, j);
      assert m - {j} - {k} == m - {k} - {j};
    }
  }

  lemma SumPut<K>(m: map<K, nat>, k: K, v: nat)
    requires k !in m
    ensures Sum(m[k := v]) == Sum(m) + v
  {
    SumRemove(m[k := v], k);
    assert m[k := v] - {k} == m;
  }

  // A part of a map sums to at most the whole.
  lemma {:induction false} SumSubset<K>(part: map<K, nat>, whole: map<K, nat>)
    requires part.Keys <= whole.Keys
    requires forall k | k in part :: part[k] == whole[k]
    ensures Sum(part) <= Sum(whole)
    decreases |part|
  {
    if part != map[] {
      var k :| k in part;
      SumRemove(part, k);
      SumRemove(whole, k);
      SumSubset(part - {k}, whole - {k});
    }
  }

  lemma UnionPut<K>(a: map<K, nat>, b: map<K, nat>, k: K)
    requires k in b
    ensures a + b == (a + (b - {k}))[k := b[k]]
  {
  }

  // Two maps with disjoint keys add up.
  lemma {:induction false} SumUnion<K>(a: map<K, nat>, b: map<K, nat>)
    requires a.Keys !! b.Keys
    ensures Sum(a + b) == Sum(a) + Sum(b)
    decreases |b|
  {
    if b == map[] {
      assert a + b == a;
    } else {
      var k :| k in b;
      SumUnion(a, b - {k});
      SumRemove(b, k);
      UnionPut(a, b, k);
      SumPut(a + (b - {k}), k, b[k]);
    }
  }
}
