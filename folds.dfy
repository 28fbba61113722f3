/** Left folds over sequences, written on the prefix so that a loop which
    walks the sequence front to back keeps `acc == F(xs[..i])` as its
    invariant.  GroupSum is the `acc[key] = (acc[key] || 0) + v` idiom. */
module Folds {

  /** Sum of `val` over all elements. */
  function Sum<T>(xs: seq<T>, val: T -> int): int
  {
    if xs == [] then 0 else Sum(xs[..|xs| - 1], val) + val(xs[|xs| - 1])
  }

  /** Sum of `val` over the elements whose key is `k`. */
  function KeyedSum<T, K(==)>(xs: seq<T>, key: T -> K, val: T -> int, k: K): int
  {
    if xs == [] then 0
    else KeyedSum(xs[..|xs| - 1], key, val, k)
         + (if key(xs[|xs| - 1]) == k then val(xs[|xs| - 1]) else 0)
  }

  /** Adds `v` to the bucket `k`, creating it at 0 when absent. */
  function Bump<K>(m: map<K, int>, k: K, v: int): (m': map<K, int>)
    ensures m'.Keys == m.Keys + {k}
    ensures m'[k] == (if k in m then m[k] else 0) + v
    ensures forall j :: j in m && j != k ==> m'[j] == m[j]
  {
    m[k := (if k in m then m[k] else 0) + v]
  }

  /** The buckets built by bumping `key(x)` by `val(x)` for every x in order. */
  function GroupSum<T, K(==)>(xs: seq<T>, key: T -> K, val: T -> int): map<K, int>
  {
    if xs == [] then map[]
    else Bump(GroupSum(xs[..|xs| - 1], key, val), key(xs[|xs| - 1]), val(xs[|xs| - 1]))
  }

  /** Sum of all values of a map. */
  ghost function MapSum<K>(m: map<K, int>): int
    decreases |m|
  {
    if |m| == 0 then 0
    else
      var k :| k in m;
      assert |(m - {k}).Keys| < |m.Keys| by { assert (m - {k}).Keys == m.Keys - {k}; }
      m[k] + MapSum(m - {k})
  }

  /** MapSum does not depend on which key its definition picks. */
  lemma {:induction false} MapSumRemove<K>(m: map<K, int>, k: K)
    requires k in m
    ensures MapSum(m) == m[k] + MapSum(m - {k})
    decreases |m|
  {
    var j := MapSumPicks(m);
    if j != k {
      var mj, mk := m - {j}, m - {k};
      OneKeyLess(m, j);
      OneKeyLess(m, k);
      assert k in mj && j in mk;
      MapSumRemove(mj, k);
      MapSumRemove(mk, j);
      assert mj - {k} == mk - {j};
    }
  }

  /** The key at which MapSum's definition unfolds. */
  lemma MapSumPicks<K>(m: map<K, int>) returns (j: K)
    requires |m| != 0
    ensures j in m && MapSum(m) == m[j] + MapSum(m - {j})
  {
    j :| j in m && MapSum(m) == m[j] + MapSum(m - {j});
  }

  lemma OneKeyLess<K>(m: map<K, int>, j: K)
    requires j in m
    ensures |m - {j}| == |m| - 1
  {
    assert (m - {j}).Keys == m.Keys - {j};
  }

  lemma MapSumBump<K>(m: map<K, int>, k: K, v: int)
    ensures MapSum(Bump(m, k, v)) == MapSum(m) + v
  {
    var b := Bump(m, k, v);
    MapSumRemove(b, k);
    if k in m {
      MapSumRemove(m, k);
      assert b - {k} == m - {k};
    } else {
      assert b - {k} == m;
    }
  }

  /** The buckets together hold exactly the total. */
  lemma {:induction false} GroupSumTotal<T, K>(xs: seq<T>, key: T -> K, val: T -> int)
    ensures MapSum(GroupSum(xs, key, val)) == Sum(xs, val)
  {
    if xs != [] {
      var n := |xs| - 1;
      GroupSumTotal(xs[..n], key, val);
      MapSumBump(GroupSum(xs[..n], key, val), key(xs[n]), val(xs[n]));
    }
  }

  /** There is one bucket per key that occurs, and each bucket is the sum of
      the values carrying that key. */
  lemma {:induction false} GroupSumAt<T, K>(xs: seq<T>, key: T -> K, val: T -> int, k: K)
    ensures k in GroupSum(xs, key, val) <==> exists i :: 0 <= i < |xs| && key(xs[i]) == k
    ensures k in GroupSum(xs, key, val) ==> GroupSum(xs, key, val)[k] == KeyedSum(xs, key, val, k)
  {
    if xs != [] {
      var n := |xs| - 1;
      var p := xs[..n];
      GroupSumAt(p, key, val, k);
      if k in GroupSum(xs, key, val) && key(xs[n]) != k {
        var i :| 0 <= i < |p| && key(p[i]) == k;
        assert xs[i] == p[i];
      }
      if exists i :: 0 <= i < |xs| && key(xs[i]) == k {
        var i :| 0 <= i < |xs| && key(xs[i]) == k;
        if i < n { assert p[i] == xs[i]; }
      }
      if key(xs[n]) == k && k !in GroupSum(p, key, val) {
        assert KeyedSum(p, key, val, k) == 0 by { KeyedSumAbsent(p, key, val, k); }
      }
    }
  }

  /** A key that never occurs sums to 0. */
  lemma {:induction false} KeyedSumAbsent<T, K>(xs: seq<T>, key: T -> K, val: T -> int, k: K)
    requires forall i :: 0 <= i < |xs| ==> key(xs[i]) != k
    ensures KeyedSum(xs, key, val, k) == 0
  {
    if xs != [] {
      var n := |xs| - 1;
      assert forall i :: 0 <= i < n ==> xs[..n][i] == xs[i];
      KeyedSumAbsent(xs[..n], key, val, k);
    }
  }

  /** Summing a constant 1 counts. */
  lemma {:induction false} SumOfOnes<T>(xs: seq<T>, one: T -> int)
    requires forall i :: 0 <= i < |xs| ==> one(xs[i]) == 1
    ensures Sum(xs, one) == |xs|
  {
    if xs != [] {
      var n := |xs| - 1;
      assert forall i :: 0 <= i < n ==> xs[..n][i] == xs[i];
      SumOfOnes(xs[..n], one);
    }
  }

  /** The elements satisfying `p`, in their original order. */
  function Filter<T>(xs: seq<T>, p: T -> bool): (r: seq<T>)
    ensures |r| <= |xs|
    ensures forall i :: 0 <= i < |r| ==> r[i] in xs && p(r[i])
    ensures forall i :: 0 <= i < |xs| && p(xs[i]) ==> xs[i] in r
  {
    if xs == [] then []
    else Filter(xs[..|xs| - 1], p) + (if p(xs[|xs| - 1]) then [xs[|xs| - 1]] else [])
  }

  /** A weaker predicate keeps at least as many elements. */
  lemma {:induction false} FilterMonotone<T>(xs: seq<T>, p: T -> bool, q: T -> bool)
    requires forall i :: 0 <= i < |xs| && p(xs[i]) ==> q(xs[i])
    ensures |Filter(xs, p)| <= |Filter(xs, q)|
  {
    if xs != [] {
      var n := |xs| - 1;
      assert forall i :: 0 <= i < n ==> xs[..n][i] == xs[i];
      FilterMonotone(xs[..n], p, q);
    }
  }

  /** Predicates that agree on the elements select the same elements. */
  lemma {:induction false} FilterAgree<T>(xs: seq<T>, p: T -> bool, q: T -> bool)
    requires forall i :: 0 <= i < |xs| ==> (p(xs[i]) <==> q(xs[i]))
    ensures Filter(xs, p) == Filter(xs, q)
  {
    if xs != [] {
      var n := |xs| - 1;
      assert forall i :: 0 <= i < n ==> xs[..n][i] == xs[i];
      FilterAgree(xs[..n], p, q);
    }
  }

  /** A predicate that holds throughout keeps everything. */
  lemma {:induction false} FilterKeepsAll<T>(xs: seq<T>, p: T -> bool)
    requires forall i :: 0 <= i < |xs| ==> p(xs[i])
    ensures Filter(xs, p) == xs
  {
    if xs != [] {
      var n := |xs| - 1;
      assert forall i :: 0 <= i < n ==> xs[..n][i] == xs[i];
      FilterKeepsAll(xs[..n], p);
      assert xs[..n] + [xs[n]] == xs;
    }
  }

  /** A predicate no element satisfies keeps nothing. */
  lemma {:induction false} FilterNone<T>(xs: seq<T>, p: T -> bool)
    requires forall i :: 0 <= i < |xs| ==> !p(xs[i])
    ensures Filter(xs, p) == []
  {
    if xs != [] {
      var n := |xs| - 1;
      assert forall i :: 0 <= i < n ==> xs[..n][i] == xs[i];
      FilterNone(xs[..n], p);
    }
  }

  /** The number of elements whose key is `k`. */
  function Count<T, K(==)>(xs: seq<T>, key: T -> K, k: K): nat
  {
    |Filter(xs, (x: T) => key(x) == k)|
  }

  /** Count, one element at a time from the back. */
  lemma CountLast<T, K>(xs: seq<T>, key: T -> K, k: K)
    requires xs != []
    ensures Count(xs, key, k) == Count(xs[..|xs| - 1], key, k) + (if key(xs[|xs| - 1]) == k then 1 else 0)
  {
  }

  /** Summing 1 over the elements with key `k` counts those elements. */
  lemma {:induction false} KeyedSumCounts<T, K>(xs: seq<T>, key: T -> K, one: T -> int, k: K)
    requires forall i :: 0 <= i < |xs| ==> one(xs[i]) == 1
    ensures KeyedSum(xs, key, one, k) == Count(xs, key, k)
  {
    if xs != [] {
      var n := |xs| - 1;
      assert forall i :: 0 <= i < n ==> xs[..n][i] == xs[i];
      KeyedSumCounts(xs[..n], key, one, k);
    }
  }

  /** `rel` holds of every pair of elements, taken in order. */
  ghost predicate Pairwise<T>(xs: seq<T>, rel: (T, T) -> bool)
  {
    forall i, j :: 0 <= i < j < |xs| ==> rel(xs[i], xs[j])
  }

  /** Dropping elements keeps a pairwise property. */
  lemma {:induction false} FilterPairwise<T>(xs: seq<T>, p: T -> bool, rel: (T, T) -> bool)
    requires Pairwise(xs, rel)
    ensures Pairwise(Filter(xs, p), rel)
  {
    if xs != [] {
      var n := |xs| - 1;
      var front := xs[..n];
      assert Pairwise(front, rel) by {
        forall i, j | 0 <= i < j < |front| ensures rel(front[i], front[j]) {
          assert front[i] == xs[i] && front[j] == xs[j];
        }
      }
      FilterPairwise(front, p, rel);
      var f := Filter(front, p);
      if p(xs[n]) {
        var r := f + [xs[n]];
        forall i, j | 0 <= i < j < |r| ensures rel(r[i], r[j]) {
          if j == |f| {
            assert r[i] == f[i] && f[i] in front;
            var k :| 0 <= k < n && front[k] == f[i];
            assert xs[k] == f[i] && r[j] == xs[n];
          } else {
            assert r[i] == f[i] && r[j] == f[j];
          }
        }
      }
    }
  }
}
