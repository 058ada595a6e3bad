/** Helpers over sequences and maps shared by the engines. */
module Collections {

  /** No element occurs twice (the source's sets and insertion-ordered key lists). */
  ghost predicate NoDup<T>(s: seq<T>)
  {
    forall i, j :: 0 <= i < j < |s| ==> s[i] != s[j]
  }

  /** The sum of a sequence of integers. */
  function SeqSum(s: seq<int>): int
  {
    if s == [] then 0 else SeqSum(s[..|s| - 1]) + s[|s| - 1]
  }

  /** The sum of the values of a map, in no particular key order. */
  ghost function MapSum<K>(m: map<K, int>): int
    decreases |m|
  {
    if |m| == 0 then 0
    else
      var k :| k in m;
      RemoveShrinks(m, k);
      m[k] + MapSum(m - {k})
  }

  lemma RemoveShrinks<K, V>(m: map<K, V>, k: K)
    requires k in m
    ensures |m - {k}| == |m| - 1
  {
    assert (m - {k}).Keys == m.Keys - {k};
  }

  /** Picks the key through which `MapSum` splits a non-empty map into one entry and the rest. */
  lemma UnfoldMapSum<K>(m: map<K, int>) returns (j: K)
    requires |m| > 0
    ensures j in m && MapSum(m) == m[j] + MapSum(m - {j})
  {
    j :| j in m && MapSum(m) == m[j] + MapSum(m - {j});
  }

  /** Any key can be taken out first: the sum does not depend on the order of the keys. */
  lemma {:induction false} MapSumRemove<K>(m: map<K, int>, k: K)
    requires k in m
    ensures MapSum(m) == m[k] + MapSum(m - {k})
    decreases |m|
  {
    var j := UnfoldMapSum(m);
    if j != k {
      var m1 := m - {j};
      var m2 := m - {k};
      RemoveShrinks(m, j);
      RemoveShrinks(m, k);
      MapSumRemove(m1, k);
      MapSumRemove(m2, j);
      assert m1 - {k} == m2 - {j};
    }
  }

  /** Overwriting or adding one entry changes the sum by the difference. */
  lemma MapSumUpdate<K>(m: map<K, int>, k: K, v: int)
    ensures MapSum(m[k := v]) == MapSum(m) - (if k in m then m[k] else 0) + v
  {
    var m' := m[k := v];
    MapSumRemove(m', k);
    if k in m {
      MapSumRemove(m, k);
      assert m' - {k} == m - {k};
    } else {
      assert m' - {k} == m;
    }
  }

  /** An empty map sums to zero. */
  lemma MapSumEmpty<K>(m: map<K, int>)
    requires |m| == 0
    ensures MapSum(m) == 0
  {
  }

  /** A map whose every value is zero sums to zero. */
  lemma {:induction false} MapSumZeros<K>(m: map<K, int>)
    requires forall k :: k in m ==> m[k] == 0
    ensures MapSum(m) == 0
    decreases |m|
  {
    if |m| > 0 {
      var k :| k in m;
      MapSumRemove(m, k);
      RemoveShrinks(m, k);
      MapSumZeros(m - {k});
    }
  }

  /** Appending an element not yet listed keeps a sequence free of repeats. */
  lemma NoDupSnoc<T>(s: seq<T>, x: T)
    requires NoDup(s) && x !in s
    ensures NoDup(s + [x])
  {
    forall i, j | 0 <= i < j < |s + [x]|
      ensures (s + [x])[i] != (s + [x])[j]
    {
      if j == |s| {
        assert (s + [x])[i] == s[i];
      }
    }
  }

  lemma {:induction false} NoDupCount<T>(s: seq<T>, x: T)
    requires NoDup(s)
    ensures multiset(s)[x] <= 1
  {
    if s != [] {
      var init := s[..|s| - 1];
      assert forall i :: 0 <= i < |init| ==> init[i] == s[i];
      NoDupCount(init, x);
      assert s == init + [s[|s| - 1]];
      if x == s[|s| - 1] {
        assert x !in init;
      }
    }
  }

  lemma DupCount<T>(s: seq<T>, i: int, j: int)
    requires 0 <= i < j < |s| && s[i] == s[j]
    ensures multiset(s)[s[i]] >= 2
  {
    assert s == s[..j] + [s[j]] + s[j + 1..];
    assert s[..j][i] == s[i];
  }

  /** A permutation of a sequence without repeats has no repeats. */
  lemma NoDupPermutation<T>(a: seq<T>, b: seq<T>)
    requires NoDup(a) && multiset(a) == multiset(b)
    ensures NoDup(b)
  {
    forall i, j | 0 <= i < j < |b|
      ensures b[i] != b[j]
    {
      if b[i] == b[j] {
        DupCount(b, i, j);
        NoDupCount(a, b[i]);
      }
    }
  }
}
