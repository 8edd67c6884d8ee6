/**
 Ruby's `Enumerable#group_by`: walk the sequence once and append every
 element to the bucket of its key. Buckets are compared against an
 independent reference, the filter of the input by one key, and the bucket
 sizes add up to the input length.
 */
module Grouping {

  /** `s.group_by(&key)`, built from the left as Ruby's loop does: the last
      element is appended to its key's bucket after the prefix is grouped. */
  function GroupBy<T, K>(s: seq<T>, key: T -> K): (g: map<K, seq<T>>)
    ensures forall i :: 0 <= i < |s| ==> key(s[i]) in g
    ensures forall k :: k in g ==> |g[k]| > 0
    ensures forall k :: k in g ==> forall i :: 0 <= i < |g[k]| ==> key(g[k][i]) == k && g[k][i] in s
    decreases |s|
  {
    if |s| == 0 then map[]
    else
      var prefix := s[..|s| - 1];
      var x := s[|s| - 1];
      assert s == prefix + [x];
      var g := GroupBy(prefix, key);
      g[key(x) := (if key(x) in g then g[key(x)] else []) + [x]]
  }

  /** The elements of `s` whose key is `k`, in input order. */
  function Filter<T, K(==)>(s: seq<T>, key: T -> K, k: K): (f: seq<T>)
    ensures |f| <= |s|
    ensures forall i :: 0 <= i < |f| ==> f[i] in s && key(f[i]) == k
    ensures forall i :: 0 <= i < |s| && key(s[i]) == k ==> s[i] in f
    decreases |s|
  {
    if |s| == 0 then []
    else (if key(s[0]) == k then [s[0]] else []) + Filter(s[1..], key, k)
  }

  lemma {:induction false} FilterSnoc<T, K>(s: seq<T>, x: T, key: T -> K, k: K)
    ensures Filter(s + [x], key, k) == Filter(s, key, k) + (if key(x) == k then [x] else [])
    decreases |s|
  {
    if |s| == 0 {
      assert s + [x] == [x];
      assert ([x])[1..] == [];
    } else {
      assert (s + [x])[0] == s[0];
      assert (s + [x])[1..] == s[1..] + [x];
      FilterSnoc(s[1..], x, key, k);
    }
  }

  /** Every bucket is exactly the input filtered by its key, so elements keep
      their input order; a key has a bucket iff its filter is non-empty. */
  lemma {:induction false} GroupByIsFilter<T, K>(s: seq<T>, key: T -> K, k: K)
    ensures k in GroupBy(s, key) <==> Filter(s, key, k) != []
    ensures k in GroupBy(s, key) ==> GroupBy(s, key)[k] == Filter(s, key, k)
    decreases |s|
  {
    if |s| == 0 {
    } else {
      var prefix := s[..|s| - 1];
      var x := s[|s| - 1];
      assert s == prefix + [x];
      GroupByIsFilter(prefix, key, k);
      FilterSnoc(prefix, x, key, k);
    }
  }

  /** Some key of a non-empty map. */
  ghost function AnyKey<K, T>(g: map<K, seq<T>>): K
    requires |g| > 0
  {
    var k :| k in g; k
  }

  /** The number of elements held in all buckets together. */
  ghost function TotalSize<K, T>(g: map<K, seq<T>>): nat
    decreases |g|
  {
    if |g| == 0 then 0
    else
      var k := AnyKey(g);
      |g[k]| + TotalSize(g - {k})
  }

  /** Taking any one bucket out first gives the same total. */
  lemma {:induction false} TotalSizeRemove<K, T>(g: map<K, seq<T>>, k: K)
    requires k in g
    ensures TotalSize(g) == |g[k]| + TotalSize(g - {k})
    decreases |g|
  {
    assert |g| == |g - {k}| + 1;
    var j := AnyKey(g);
    if j != k {
      TotalSizeRemove(g - {j}, k);
      TotalSizeRemove(g - {k}, j);
      assert (g - {j}) - {k} == (g - {k}) - {j};
    }
  }

  lemma {:induction false} TotalSizeUpdate<K, T>(g: map<K, seq<T>>, k: K, v: seq<T>)
    ensures TotalSize(g[k := v]) == TotalSize(g) - (if k in g then |g[k]| else 0) + |v|
  {
    var u := g[k := v];
    var rest := g - {k};
    TotalSizeRemove(u, k);
    assert u - {k} == rest;
    if k in g {
      TotalSizeRemove(g, k);
    } else {
      assert rest == g;
    }
  }

  /** Grouping neither drops nor duplicates elements. */
  lemma {:induction false} GroupByTotal<T, K>(s: seq<T>, key: T -> K)
    ensures TotalSize(GroupBy(s, key)) == |s|
    decreases |s|
  {
    if |s| > 0 {
      var prefix := s[..|s| - 1];
      var x := s[|s| - 1];
      var g := GroupBy(prefix, key);
      GroupByTotal(prefix, key);
      TotalSizeUpdate(g, key(x), (if key(x) in g then g[key(x)] else []) + [x]);
    }
  }
}
