/**
 `ORDER BY stamp ASC LIMIT n` over a finite pool, with ties in any order, and what
 repeating it on what is left adds up to.
 */
module Selection {

  function Min(a: nat, b: nat): nat {
    if a <= b then a else b
  }

  predicate Distinct<K(==)>(s: seq<K>) {
    forall i, j :: 0 <= i < j < |s| ==> s[i] != s[j]
  }

  predicate SortedBy<K>(stamp: map<K, int>, s: seq<K>) {
    && (forall i :: 0 <= i < |s| ==> s[i] in stamp)
    && forall i, j :: 0 <= i < j < |s| ==> stamp[s[i]] <= stamp[s[j]]
  }

  function Elems<K>(s: seq<K>): set<K> {
    set k | k in s
  }

  lemma ElemsJoin<K>(a: seq<K>, b: seq<K>)
    ensures Elems(a + b) == Elems(a) + Elems(b)
  {
  }

  lemma ElemsMore<K>(s: seq<K>, i: nat)
    requires i < |s|
    ensures Elems(s[..i + 1]) == Elems(s[..i]) + {s[i]}
  {
  }

  // out holds the earliest |out| members of the pool, in order.
  ghost predicate Leads<K(!new)>(pool: set<K>, stamp: map<K, int>, out: seq<K>)
    requires pool <= stamp.Keys
  {
    && Distinct(out)
    && Elems(out) <= pool
    && SortedBy(stamp, out)
    && forall i, k :: 0 <= i < |out| && k in pool - Elems(out) ==> stamp[out[i]] <= stamp[k]
  }

  // out is an answer the database may give: the limit earliest of the pool, in order.
  ghost predicate IsSelection<K(!new)>(pool: set<K>, stamp: map<K, int>, limit: nat, out: seq<K>)
    requires pool <= stamp.Keys
  {
    |out| == Min(limit, |pool|) && Leads(pool, stamp, out)
  }

  lemma LastElem<K>(s: seq<K>)
    requires s != []
    ensures Elems(s) == Elems(s[..|s| - 1]) + {s[|s| - 1]}
  {
    assert s == s[..|s| - 1] + [s[|s| - 1]];
  }

  lemma {:induction false} DistinctCount<K>(s: seq<K>)
    requires Distinct(s)
    ensures |Elems(s)| == |s|
  {
    if s != [] {
      var front, x := s[..|s| - 1], s[|s| - 1];
      assert Distinct(front) && x !in Elems(front);
      LastElem(s);
      hide Distinct, Elems;
      DistinctCount(front);
    }
  }

  method Earliest<K(==)>(pool: set<K>, stamp: map<K, int>) returns (k: K)
    requires pool <= stamp.Keys && pool != {}
    ensures k in pool
    ensures forall x :: x in pool ==> stamp[k] <= stamp[x]
  {
    k :| k in pool;
    var rest := pool - {k};
    while rest != {}
      invariant rest <= pool && k in pool
      invariant forall x :: x in pool - rest ==> stamp[k] <= stamp[x]
      decreases rest
    {
      var x :| x in rest;
      if stamp[x] < stamp[k] {
        k := x;
      }
      rest := rest - {x};
    }
  }

  lemma LeadsJoin<K(!new)>(pool: set<K>, stamp: map<K, int>, first: seq<K>, rest: seq<K>)
    requires pool <= stamp.Keys
    requires Leads(pool, stamp, first) && Leads(pool - Elems(first), stamp, rest)
    ensures Elems(first + rest) == Elems(first) + Elems(rest)
    ensures Leads(pool, stamp, first + rest)
  {
    var all := first + rest;
    assert forall k :: k in Elems(rest) <==> k in rest;
    forall i, j | 0 <= i < j < |all|
      ensures all[i] != all[j] && all[i] in stamp && all[j] in stamp && stamp[all[i]] <= stamp[all[j]]
    {
      if i < |first| <= j {
        assert all[j] == rest[j - |first|] && all[j] in Elems(rest) && all[i] in Elems(first);
      } else if |first| <= i {
        assert all[i] == rest[i - |first|] && all[j] == rest[j - |first|];
      }
    }
    forall i, k | 0 <= i < |all| && k in pool - Elems(all)
      ensures all[i] in stamp && stamp[all[i]] <= stamp[k]
    {
      if i < |first| {
        assert all[i] == first[i] && k in pool - Elems(first);
      } else {
        assert all[i] == rest[i - |first|] && k in pool - Elems(first) - Elems(rest);
      }
    }
  }

  method Select<K(==, !new)>(pool: set<K>, stamp: map<K, int>, limit: nat) returns (out: seq<K>)
    requires pool <= stamp.Keys
    ensures IsSelection(pool, stamp, limit, out)
  {
    out := [];
    var rest := pool;
    assert Leads(pool, stamp, out);
    hide Leads;
    while rest != {} && |out| < limit
      invariant Leads(pool, stamp, out) && |out| <= limit
      invariant rest == pool - Elems(out)
      decreases rest
    {
      var k := Earliest(rest, stamp);
      LeadsWithEarliest(rest, stamp, k);
      LeadsJoin(pool, stamp, out, [k]);
      out := out + [k];
      rest := rest - {k};
    }
    LeadsSize(pool, stamp, out);
  }

  lemma LeadsWithEarliest<K(!new)>(pool: set<K>, stamp: map<K, int>, k: K)
    requires pool <= stamp.Keys && k in pool && forall x :: x in pool ==> stamp[k] <= stamp[x]
    ensures Leads(pool, stamp, [k]) && Elems([k]) == {k}
  {
  }

  lemma LeadsSize<K(!new)>(pool: set<K>, stamp: map<K, int>, out: seq<K>)
    requires pool <= stamp.Keys && Leads(pool, stamp, out)
    ensures |out| <= |pool| && (pool - Elems(out) == {} ==> |out| == |pool|)
  {
    DistinctCount(out);
    assert |pool - Elems(out)| == |pool| - |Elems(out)|;
  }

  // What an answer leaves out it leaves out for want of room, and it is not earlier than what is in.
  lemma SelectionInPlainTerms<K(!new)>(pool: set<K>, stamp: map<K, int>, limit: nat, out: seq<K>)
    requires pool <= stamp.Keys && IsSelection(pool, stamp, limit, out)
    ensures |out| <= limit && forall k :: k in out ==> k in pool
    ensures forall i, j :: 0 <= i < j < |out| ==> out[i] != out[j] && stamp[out[i]] <= stamp[out[j]]
    ensures forall k :: k in pool && k !in out ==> |out| == limit && forall x :: x in out ==> stamp[x] <= stamp[k]
  {
    forall k | k in out ensures k in pool {
      assert k in Elems(out);
    }
    forall k | k in pool && k !in out
      ensures |out| == limit
      ensures forall x :: x in out ==> stamp[x] <= stamp[k]
    {
      assert k in pool - Elems(out);
      DistinctCount(out);
      Fewer(Elems(out), pool, k);
    }
  }

  lemma Fewer<K>(a: set<K>, b: set<K>, k: K)
    requires a <= b && k in b - a
    ensures |a| < |b|
  {
    assert |b - a| == |b| - |a|;
  }

  // Each batch is a selection from what the earlier ones left.
  ghost predicate Rounds<K(!new)>(pool: set<K>, stamp: map<K, int>, limits: seq<nat>, batches: seq<seq<K>>)
    requires pool <= stamp.Keys
    decreases |limits|
  {
    && |batches| == |limits|
    && (limits == [] ||
        (IsSelection(pool, stamp, limits[0], batches[0]) &&
         Rounds(pool - Elems(batches[0]), stamp, limits[1..], batches[1..])))
  }

  function Flatten<K>(batches: seq<seq<K>>): seq<K> {
    if batches == [] then [] else batches[0] + Flatten(batches[1..])
  }

  function Total(limits: seq<nat>): nat {
    if limits == [] then 0 else limits[0] + Total(limits[1..])
  }

  // However the limits are chosen, the rounds together are one selection with the total limit:
  // nobody is answered twice, nobody earlier is passed over, and the order is kept across rounds.
  lemma {:induction false} RoundsAreOneSelection<K(!new)>(pool: set<K>, stamp: map<K, int>, limits: seq<nat>,
      batches: seq<seq<K>>)
    requires pool <= stamp.Keys && Rounds(pool, stamp, limits, batches)
    ensures IsSelection(pool, stamp, Total(limits), Flatten(batches))
    decreases |limits|
  {
    if limits != [] {
      var first, rest := batches[0], Flatten(batches[1..]);
      var left := pool - Elems(first);
      RoundsAreOneSelection(left, stamp, limits[1..], batches[1..]);
      DistinctCount(first);
      assert |left| == |pool| - |first|;
      LeadsJoin(pool, stamp, first, rest);
    }
  }
}
