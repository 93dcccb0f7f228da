/** Sums of the values of a finite map, and how they change with the map. */
module Sums {

  ghost function Sum<K>(m: map<K, int>): int
    decreases |m|
  {
    if m == map[] then 0
    else
      var k :| k in m;
      m[k] + Sum(m - {k})
  }

  lemma {:induction false} SumSplit<K>(m: map<K, int>, k: K)
    requires k in m
    ensures Sum(m) == m[k] + Sum(m - {k})
    decreases |m|
  {
    var x :| x in m && Sum(m) == m[x] + Sum(m - {x});
    if x != k {
      SumSplit(m - {x}, k);
      SumSplit(m - {k}, x);
      assert m - {x} - {k} == m - {k} - {x};
    }
  }

  // Values only fall, keys only go, and each key of `paid` gives up at least one.
  lemma {:induction false} SumFalls<K>(before: map<K, int>, after: map<K, int>, paid: set<K>)
    requires after.Keys <= before.Keys && paid <= before.Keys
    requires forall k :: k in before ==> before[k] >= 1
    requires forall k :: k in after ==> after[k] <= before[k]
    requires forall k :: k in paid && k in after ==> after[k] + 1 <= before[k]
    ensures Sum(after) + |paid| <= Sum(before)
    decreases |before|
  {
    if before != map[] {
      var k :| k in before;
      SumSplit(before, k);
      if k in after {
        SumSplit(after, k);
      } else {
        assert after - {k} == after;
      }
      SumFalls(before - {k}, after - {k}, paid - {k});
      assert |paid - {k}| >= |paid| - (if k in paid then 1 else 0);
    } else {
      assert after == map[] && paid == {};
    }
  }

  lemma {:induction false} SumNonNegative<K>(m: map<K, int>)
    requires forall k :: k in m ==> m[k] >= 0
    ensures Sum(m) >= 0
    decreases |m|
  {
    if m != map[] {
      var k :| k in m;
      SumSplit(m, k);
      SumNonNegative(m - {k});
    }
  }
}
